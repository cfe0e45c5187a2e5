# Crypto charting dashboard: a Dafny model of its client-side logic

This project models the logic under a browser dashboard that charts exchange
candlesticks, keeps a watchlist with live price changes, and lets the user
draw a two-point trendline. It covers five parts:

- **Viewport sampler and zoom/scroll controller** (`viewport.dfy`, `price_chart.dfy`).
  The chart draws every 10th candle of a window of the series. The window's
  size is the series length divided by the zoom level, and its position
  follows the scroll slider. Zoom doubles or halves within [1, 10]. Scrolling
  is refused while the zoom is 1.
- **Trendline capture** (`price_chart.dfy`). In drawing mode, a click or tap
  on a candle records the point (candle time in seconds, midpoint of high and
  low). A second click completes the line and opens the modal. A third click
  starts over with one point. Hovering with one point held previews the
  segment. Closing the modal clears everything and leaves drawing mode.
- **Kline normaliser and exchange metadata filters** (`binance_api.dfy`).
  Raw kline arrays are validated, converted and filtered in order. The ticker
  list is narrowed to the watched symbols. Exchange symbols are narrowed to
  those that are trading, and matched against a search query regardless of
  case. A response whose status is not 2xx becomes an error.
- **Watchlist price-change tracker** (`market_overview.dfy`). Each poll
  replaces the price map with the new snapshot. It merges the percentage
  changes against the previous snapshot into the change map. A failed poll
  keeps both maps and reports an error.
- **Watchlist list operations** (`app.dfy`). A symbol is added only if it is
  absent, removal drops every occurrence, and the initial list is the saved
  list or a default of three symbols.

`wrappers.dfy` holds `Option` and `Result`. `sequences.dfy` holds the
order-preserving `Filter` and `FilterMap` that the JavaScript `filter`/`map`
chains become.

Modelling choices:

- Prices, zoom and the scroll fraction are exact `real`s. A `NaN` number is
  `None` of an `Option<real>`. `parseFloat` and `Number` on strings are
  parameters (`StringNumbers`), so every property holds for any parser.
- The chart's state is the class `PriceChart.Chart`. One component effect
  redraws the window whenever the candles, the zoom or the scroll change.
  The model runs that redraw at the end of each handler that changes them.
  `Chart.Valid()` therefore includes `displayed == Displayed(data, zoomLevel, scrollPosition)`.
- Network and storage inputs are parameters. The fetch outcome is a
  `Result` handed to `LoadData` and `FetchPrices`. The HTTP response is a
  `Response(status, body)` with an already-decoded body. The saved watchlist
  is an `Option<seq<string>>`.

Behaviour worth noting (the model follows the code in each case):

- Kline times are `milliseconds / 1000` with no truncation, so they can be
  fractional. Only the streaming path floors them, where its comment asks for
  an integer timestamp (src/services/binanceApi.js:137;
  `BinanceApi.RestAndStreamTimesDiffer`).
- A successful poll replaces the price map wholesale. A watched symbol that
  is missing from the snapshot loses its price instead of keeping it.
- A change from a zero previous price to a non-zero price is an infinity, and
  it is stored. Only 0 to 0 (`NaN`) is dropped.
- Toggling drawing mode flips only the flag. It does not clear captured
  points or the preview, although the button reads "Cancel Drawing" while
  drawing (src/components/PriceChart.jsx:213).
- Every 10th candle is drawn even at zoom 1, so a two-candle series shows
  only its first candle (`Viewport.ShortSeriesShowsFirstOnly`).
- A chart reload does not reset zoom or scroll. The new candles are drawn at
  the current zoom and scroll.

## Model

| member | source | states |
|---|---|---|
| `Viewport.Sample` | src/components/PriceChart.jsx:31-33 | keeping the elements whose index is a multiple of 10 yields ceil(n/10) elements, the k-th being element 10k of the input, in order |
| `Viewport.VisiblePoints` | src/components/PriceChart.jsx:66 | the visible count is at least 1; when above 1 it is the floor of total/zoom (at most the quotient and more than the quotient minus 1) |
| `Viewport.Window` | src/components/PriceChart.jsx:66-69 | for any positive zoom and scroll in [0,100]: 0 <= start <= end <= total and the window holds at most the visible count (its start is fixed by `WindowStart`) |
| `Viewport.Displayed` | src/components/PriceChart.jsx:63-70 | the drawn candles are no more than the series, none exactly when the series is empty, and each is a candle of the series |
| `Viewport.WindowStart` | src/components/PriceChart.jsx:67-69 | for a non-empty series, zoom in [1,10] and scroll in [0,100] the window starts at the scroll fraction of the candles that do not fit, rounded down; scroll 0 starts at the oldest candle and scroll 100 ends at the newest |
| `Viewport.WindowMonotone` | src/components/PriceChart.jsx:67-68 | moving the slider right never moves the window's start left |
| `Viewport.WindowBounds` | src/components/PriceChart.jsx:65-69 | for a non-empty series, zoom in [1,10] and scroll in [0,100]: 0 <= start <= end <= total and end - start = max(floor(total/zoom), 1), which lies in [1, total] |
| `Viewport.WindowAtZoomOne` | src/components/PriceChart.jsx:66-69 | at zoom 1 the window is the whole series for every scroll value |
| `Viewport.DisplayedIsSampledWindow` | src/components/PriceChart.jsx:63-70 | the drawn candles are the window's candles at stride 10, ceil(visible/10) of them, each inside the window |
| `Viewport.ScrollIgnoredAtZoomOne` | src/components/PriceChart.jsx:63-70 | at zoom 1 what is drawn is the sample of the whole series, whatever the scroll |
| `Viewport.ShortSeriesShowsFirstOnly` | src/components/PriceChart.jsx:31-33 | a series of 1 to 10 candles at zoom 1 is drawn as its first candle only |
| `Viewport.ZoomedIn` | src/components/PriceChart.jsx:73 | zoom in doubles the zoom or caps it at 10; the result stays in [1,10], never decreases and is at most twice the old zoom |
| `Viewport.ZoomedOut` | src/components/PriceChart.jsx:74 | zoom out halves the zoom or floors it at 1; the result stays in [1,10], never increases and is at least half the old zoom |
| `Viewport.ZoomStepsClosed` | src/components/PriceChart.jsx:73-74 | from the levels {1, 1.25, 2, 2.5, 4, 5, 8, 10} zooming in or out stays among them |
| `PriceChart.CandleColor` | src/components/PriceChart.jsx:137 | a candle is coloured rising exactly when close >= open, falling otherwise |
| `PriceChart.DateValue` | src/components/PriceChart.jsx:42 | a Date keeps the millisecond value truncated toward zero, within 1 ms of it |
| `PriceChart.Format` | src/components/PriceChart.jsx:41-49 | formatting keeps prices and volume, keeps the time to the millisecond and colours by close >= open |
| `PriceChart.PointOf` | src/components/PriceChart.jsx:92-95 | a clicked candle gives the point at its time in seconds and at the midpoint of its high and low |
| `PriceChart.Chart.Valid` | src/components/PriceChart.jsx:21-29 | in a consistent chart the drawn candles are no more than the series and none exactly when the series is empty, and no preview exists without a captured point |
| `PriceChart.Chart.constructor` | src/components/PriceChart.jsx:21-29 | the chart starts empty at zoom 1, scroll 0, not drawing, with no points, no preview and the modal closed |
| `PriceChart.Chart.ApplyZoomAndScroll` | src/components/PriceChart.jsx:63-71 | a non-empty series is drawn as its sampled window; an empty one leaves the drawn candles unchanged |
| `PriceChart.Chart.LoadData` | src/components/PriceChart.jsx:38-54 | a failed load changes nothing; a successful one replaces the series by the formatted candles, drawn at the unchanged zoom and scroll |
| `PriceChart.Chart.ZoomIn` | src/components/PriceChart.jsx:73 | zoom becomes min(2z, 10), the chart is redrawn and nothing else changes |
| `PriceChart.Chart.ZoomOut` | src/components/PriceChart.jsx:74 | zoom becomes max(z/2, 1), the chart is redrawn and nothing else changes |
| `PriceChart.Chart.ResetZoom` | src/components/PriceChart.jsx:75-79 | zoom 1, scroll 0 and the drawn candles are the sample of the whole series |
| `PriceChart.Chart.ScrollChange` | src/components/PriceChart.jsx:80-87 | at zoom 1 the change is rejected and nothing changes; otherwise the scroll becomes the new value and the chart is redrawn |
| `PriceChart.Chart.Click` | src/components/PriceChart.jsx:89-102 | with drawing off or no candle nothing changes; otherwise the point is appended below two points and restarts the list at two, the modal opens at two points and is never closed by a click, and the preview is null exactly when one point is held |
| `PriceChart.Chart.MouseMove` | src/components/PriceChart.jsx:104-112 | only while drawing with exactly one point does the preview become (first point, hovered point); the points and everything else never change |
| `PriceChart.Chart.ModalClose` | src/components/PriceChart.jsx:114-119 | closing empties the points, nulls the preview, closes the modal and leaves drawing mode |
| `PriceChart.Chart.ToggleDrawingMode` | src/components/PriceChart.jsx:207-208 | the button flips drawing mode and leaves points, preview and modal as they are |
| `PriceChart.Chart.ModalCoordinates` | src/components/PriceChart.jsx:317-320 | the modal receives the two points exactly when two are held |
| `PriceChart.Chart.ModalShown` | src/components/TrendlineModal.jsx:4 | the modal renders exactly when it is open and two points are held |
| `BinanceApi.Truthy` | src/services/binanceApi.js:87 | a field is falsy exactly when it is null, false, 0 or the empty string |
| `BinanceApi.ParseFloat` | src/services/binanceApi.js:90-94 | a number parses to itself; null and booleans parse to NaN; a string goes to the string parser |
| `BinanceApi.ToNumber` | src/services/binanceApi.js:89 | every non-string converts to a number; a number converts as it parses; null converts to 0 though it parses to NaN; true and false convert to 1 and 0; a string goes to the string converter |
| `BinanceApi.OrZero` | src/services/binanceApi.js:90-94 | falling back to 0 gives 0 exactly when the parsed value is NaN or 0, and the value itself otherwise |
| `BinanceApi.WellFormed` | src/services/binanceApi.js:87 | a kept record is an array of at least 6 fields whose time and close are neither null, 0 nor empty |
| `BinanceApi.Normalize` | src/services/binanceApi.js:86-96 | a record yields a candle exactly when it is an array of at least 6 fields with truthy time and close and a positive numeric time; the candle's time times 1000 is the raw time, unfloored; each price and the volume is the parsed field or 0 |
| `BinanceApi.NormalizeKlines` | src/services/binanceApi.js:86-96 | no more candles than records, each with a positive time |
| `BinanceApi.NormalizeKlinesAppend` | src/services/binanceApi.js:86-96 | normalising a concatenation concatenates the normalised parts, so input order is kept |
| `BinanceApi.NormalizeSingle` | src/services/binanceApi.js:86-96 | a single record yields its own candle or nothing |
| `BinanceApi.NormalizeDropsMalformed` | src/services/binanceApi.js:87 | a record that is not a six-field array with truthy time and close is absent from the output |
| `BinanceApi.StreamCandleTime` | src/services/binanceApi.js:137 | the streaming path's time is the floor of milliseconds / 1000 |
| `BinanceApi.RestAndStreamTimesDiffer` | src/services/binanceApi.js:89 | for 1500 ms the REST path gives 1.5 s where the streaming path gives 1 s |
| `BinanceApi.FetchKlines` | src/services/binanceApi.js:79-96 | a non-2xx status yields the status error, otherwise the normalised candles |
| `BinanceApi.TickerPrices` | src/services/binanceApi.js:25-31 | the price map's keys are exactly the requested symbols that occur in the ticker list |
| `BinanceApi.LastTickerWins` | src/services/binanceApi.js:27-31 | a symbol's value is the parsed price of its last occurrence in the ticker list |
| `BinanceApi.CollectPrices` | src/services/binanceApi.js:25-31 | the entry-by-entry loop builds exactly that price map |
| `BinanceApi.FetchSymbolsPrice` | src/services/binanceApi.js:14-33 | a non-2xx status yields the status error, otherwise the price map of the requested symbols |
| `BinanceApi.TradingSummaries` | src/services/binanceApi.js:47-53 | the results are exactly the projections of the TRADING entries, no more of them than entries |
| `BinanceApi.TradingSummariesAppend` | src/services/binanceApi.js:47-53 | filtering and projecting a concatenation concatenates the results, so order and repeats follow the input |
| `BinanceApi.TradingSummariesSingle` | src/services/binanceApi.js:47-53 | one entry yields its projection when TRADING and nothing otherwise |
| `BinanceApi.Lower` | src/services/binanceApi.js:57 | lower-casing keeps the length, maps each upper-case ASCII letter to its lower-case letter, keeps every other character, and leaves no upper-case letter |
| `BinanceApi.LowerIdempotent` | src/services/binanceApi.js:57-59 | lower-casing a lower-cased text changes nothing |
| `BinanceApi.Includes` | src/services/binanceApi.js:57-59 | a found needle is no longer than the text; the empty needle is always found |
| `BinanceApi.IncludesAt` | src/services/binanceApi.js:57-59 | a needle occurring at any position is found |
| `BinanceApi.IncludesOccurs` | src/services/binanceApi.js:57-59 | a found needle occurs at some position, so with `IncludesAt` finding is exactly substring containment |
| `BinanceApi.MatchesQuery` | src/services/binanceApi.js:56-60 | the empty query matches every entry |
| `BinanceApi.MatchesQueryIgnoresQueryCase` | src/services/binanceApi.js:56-60 | a query matches exactly when its lower-cased form does |
| `BinanceApi.FirstCharMissing` | src/services/binanceApi.js:57-59 | a needle whose first character is not in the text is not found |
| `BinanceApi.SearchIgnoresCase` | src/services/binanceApi.js:55-60 | the query "btc" matches BTCUSDT/BTC/USDT and "eth" does not |
| `BinanceApi.FilterSymbols` | src/services/binanceApi.js:47-63 | an entry is in the result iff it projects a TRADING entry and, for a non-empty query, matches it; an empty query returns all trading entries |
| `BinanceApi.FilterSymbolsAppend` | src/services/binanceApi.js:47-63 | searching a concatenation concatenates the searches, so order and repeats follow the input |
| `BinanceApi.SearchSymbols` | src/services/binanceApi.js:39-63 | a non-2xx status yields the status error, otherwise the filtered trading entries |
| `BinanceApi.TradingSymbols` | src/services/binanceApi.js:112-114 | the names are exactly those of the TRADING entries |
| `BinanceApi.TradingSymbolsAppend` | src/services/binanceApi.js:112-114 | listing a concatenation concatenates the lists, so order and repeats follow the input |
| `BinanceApi.TradingSymbolsAreSearchSymbols` | src/services/binanceApi.js:112-114 | the symbol list is, in order, the symbols of an unfiltered search |
| `BinanceApi.FetchSymbols` | src/services/binanceApi.js:104-114 | a non-2xx status yields the status error, otherwise the trading symbol names |
| `MarketOverview.PreviousPrice` | src/components/MarketOverview.jsx:23 | a symbol absent from the previous prices has no previous price; a present one has its stored price |
| `MarketOverview.PercentChange` | src/components/MarketOverview.jsx:22-28 | no change iff a price is NaN or both are 0; a finite change c satisfies previous + previous*c/100 = current; from 0 to a positive or negative price the change is +Infinity or -Infinity |
| `MarketOverview.PercentChangeExamples` | src/components/MarketOverview.jsx:26 | 100 to 105 is 5 percent; 0 to 0 gives nothing; 0 to 3 gives +Infinity |
| `MarketOverview.NewChanges` | src/components/MarketOverview.jsx:20-31 | a change is computed exactly for symbols in the snapshot with a previous price, both non-NaN and not both 0, so a first observation yields none |
| `MarketOverview.ComputeChanges` | src/components/MarketOverview.jsx:20-31 | the loop over the snapshot's entries builds exactly those changes |
| `MarketOverview.Overview.constructor` | src/components/MarketOverview.jsx:5-8 | no prices, no changes, loading, no error |
| `MarketOverview.Overview.FetchPrices` | src/components/MarketOverview.jsx:10-48 | an empty watchlist only ends loading; a failure keeps prices and changes and sets the error; a success (whose snapshot holds only watched symbols) sets prices to the snapshot, merges the new changes over the old and clears the error |
| `MarketOverview.PollMerge` | src/components/MarketOverview.jsx:33-36 | after a poll, changes not recomputed are kept and recomputed ones overwrite |
| `MarketOverview.PriceShown` | src/components/MarketOverview.jsx:133-139 | a price is shown exactly when present, non-NaN and non-zero, else '-' |
| `MarketOverview.ChangeShown` | src/components/MarketOverview.jsx:142-150 | a badge is shown exactly when a change is stored; the arrow is up iff the change is >= 0; the magnitude is its absolute value |
| `App.InitialWatchlist` | src/App.jsx:9-12 | the saved list when one exists, else BTCUSDT, ETHUSDT, BNBUSDT |
| `App.AddToWatchlist` | src/App.jsx:18-22 | a listed symbol leaves the list unchanged; an absent one is appended after the unchanged earlier elements; no duplicates before means none after |
| `App.RemoveFromWatchlist` | src/App.jsx:24-26 | the symbol is gone and exactly the other symbols remain |
| `App.RemoveAbsentIsNoOp` | src/App.jsx:25 | removing an unlisted symbol changes nothing |
| `App.RemovePreservesOrder` | src/App.jsx:25 | removal from a concatenation removes from each part, so relative order is kept |
| `App.RemoveKeepsNoDuplicates` | src/App.jsx:25 | removal keeps a list free of repeats |
| `App.AddThenRemove` | src/App.jsx:18-26 | adding an absent symbol and removing it restores the list |

## Left out

- Network I/O is not modelled. This covers every `fetch` and `response.json()`
  call and the WebSocket client `subscribeToKlines` with its reconnect timer and
  retry ceiling (src/services/binanceApi.js:122-176). Only its time conversion
  (`StreamCandleTime`) is modelled. Operations take the response status and the
  decoded body as input. A request that rejects without a status is not modelled.
- Merging live candles into the series is not modelled because the code has
  none. `subscribeToKlines` is imported but never called, and
  `subscriptionCleanup` is never assigned.
- Asynchrony is not modelled. This covers the ordering and cancellation of
  in-flight loads when the symbol or timeframe changes, the 5-second poll
  interval and its cleanup, and the search debounce in
  src/components/SymbolSearch.jsx.
- `localStorage` and `JSON.parse` are not modelled. The saved watchlist is an
  input, and saving it is a side effect.
- Rendering is not modelled. This covers candlestick pixel geometry, the
  tooltip, axis formatters, `window.innerWidth` checks, `toFixed` and
  `toLocaleString`, the modal's markup and the `alert` text. The scroll
  rejection is a returned flag instead of an `alert`.
- src/services/trendlineApi.js is not part of this model because its code is
  entirely commented out.
- Floating point is not modelled. Arithmetic is exact, and negative zero is
  not distinguished from zero. A parsed string is finite or `NaN`, never an
  infinity. `Date`'s range limit (an invalid date beyond ±8.64e15 ms) is not
  modelled.
- Viewport.Sample: the rate is fixed at the default of 10, the only rate the chart
  uses. `sampleData`'s optional rate parameter is not modelled.
- BinanceApi.Lower: only the ASCII letters A-Z are lower-cased, while
  `toLowerCase` also maps other Unicode letters.
- BinanceApi.Json: a kline field that is itself an array or object cannot be
  represented. Only null, booleans, numbers and strings can.
- PriceChart.Chart.ScrollChange: the slider's value is assumed to be an
  integer in [0, 100], as the range input's bounds guarantee. The
  `parseInt` of its text is not modelled.
- The timeframe selector is not modelled beyond what it triggers, a reload
  through `LoadData`.
