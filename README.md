# NeuroStock dashboard: a verified model of its data logic

NeuroStock is a Streamlit dashboard. Its home page shows a grid of watchlist
cards. Each card has a last price, a percentage change, a coloured status band
and a sparkline of recent closes. A card button, or a free-text search, opens an
analysis page for one ticker. That page has the latest price metrics, 100- and
200-day moving averages, an on-demand LSTM forecast, and two derived holder
tables.

This project models the deterministic logic inside those pages, over exact
`real` prices:

- **Forecast** (`forecast.dfy`). This is the data preparation around the LSTM:
  - the chronological split of the closes at the split point;
  - the min-max scaler, fitted on the training part only and reused unchanged
    on the lead-in plus the testing part;
  - the 100-step sliding windows with the value that follows each one;
  - the 100-row lead-in taken from the training tail;
  - the final "rescale", a multiplication by `1 / scale_`.

  `RunForecast` chains these steps exactly as the "Start LSTM Training" branch
  does. The trained network is a parameter, `model`, which maps one window to
  one prediction.
- **Indicators** (`indicators.dfy`): the price metrics and the rolling means.
- **Holders** (`holders.dfy`): the holder profit-or-loss table and the
  insider-sale table. Each is a loop over the rows, proved against one
  filter-and-map specification.
- **Home** (`home.dfy`). This covers:
  - the sparkline points, as a loop method proved against `Sparkline`;
  - the percentage change, with numpy's infinities and NaN when the previous
    close is zero;
  - the three-way status band;
  - the per-card fallback to "---";
  - the loop over the twelve watchlist tickers.
- **App** (`app.py` with the buttons of the two pages, in `app.dfy`). A
  `SessionState` class holds `selected_stock`. It is initialised only when
  absent and changed by the Analyze, Search and Back buttons. Routing sends
  `None` to the grid and any ticker to its analysis page.
- `series.dfy` (sum, min, max, mean, tail), `text.dfy` (ASCII upper- and
  lower-casing, substring search) and `wrappers.dfy` (Option, Result) are
  shared helpers.

The split point is a parameter `k`, not `N * 7 / 10`. The code computes it as
`int(len(df) * 0.70)` in binary floating point, which is either floor(7N/10) or
one less: 90 rows give 62, not 63. `FloatSplitPoint` states this range, and
`RunForecast` states what it implies for the outcome.

The code has no guard for a training part of 100 rows or fewer. Building the
network then reads `x_train.shape[1]` of an empty array, which raises an
uncaught error. The model gives this crash a name, `NoTrainingWindows`. The
crash comes before any scaled value is used, so it happens whatever the prices
are, flat or not. The code also has no guard for a flat training series of
more than 100 rows. The model takes that case alone as a precondition
(`TrainingNotFlat`).

## Model

| member | source | states |
|---|---|---|
| Forecast.Split | templates/analysis.py:104-105 | training ++ testing is the whole close column; training has exactly k rows and the two lengths add up to N |
| Forecast.SplitPointInRange | templates/analysis.py:104 | a split point within float rounding of 70% of N lies in [0, N], is positive from 10 rows on, is at most 100 up to 144 rows and above 100 from 146 rows on |
| Forecast.Fit | templates/analysis.py:107-108 | fitting fails exactly on an empty training part; otherwise lo and hi are training values bounding every training value |
| Forecast.Transform | templates/analysis.py:107-108 | the scaled value times the training range is the value's distance above the training minimum |
| Forecast.TransformAll | templates/analysis.py:108 | the column keeps its length and every element is scaled by the one fitted scaler |
| Forecast.TransformMonotone | templates/analysis.py:107-108 | the min-max map is strictly increasing |
| Forecast.TransformEndpoints | templates/analysis.py:107 | the map sends lo to 0 and hi to 1 (feature_range (0, 1)) |
| Forecast.TransformTrainingIntoUnit | templates/analysis.py:107-108 | every training value scales into [0, 1]; the training minimum goes to 0 and the maximum to 1 |
| Forecast.TransformOutsideTrainingRange | templates/analysis.py:148 | the map is not refitted: a test value above the training maximum scales above 1, one below the minimum below 0 |
| Forecast.ScaleFactor | templates/analysis.py:158 | `1 / scale_` equals hi - lo |
| Forecast.Rescale | templates/analysis.py:159-160 | the rescale multiplies by hi - lo and adds nothing back |
| Forecast.RescaleAll | templates/analysis.py:159-160 | the rescaled column keeps its length |
| Forecast.RescaleOfTransform | templates/analysis.py:158-160 | rescaling a scaled price gives the price minus the training minimum, not the price |
| Forecast.RescaleIsInverseOnlyAtZeroMin | templates/analysis.py:158-160 | the rescale undoes the scaling if and only if the training minimum is 0 |
| Forecast.RescaleCounterexample | templates/analysis.py:158-160 | training [1, 2]: the close 2 is charted as 1 |
| Forecast.InverseRoundTrip | templates/analysis.py:158-160 | the corrected inverse y * (hi - lo) + lo and the scaling undo each other in both directions |
| Forecast.IntendedChart | templates/analysis.py:158-160 | with the corrected inverse the charted original value is each testing day's close, and every charted value, original or predicted, is short of the corrected one by exactly the training minimum |
| Forecast.RescaleKeepsOrderAndGaps | templates/analysis.py:158-160 | one factor on targets and predictions keeps their order, and every gap is multiplied by hi - lo |
| Forecast.RescaleAllByRange | templates/analysis.py:159-160 | every rescaled value is the scaled value times hi - lo, and the length is kept |
| Forecast.MakeWindows | templates/analysis.py:115-118 | there are max(0, L - w) windows; window j is arr[j..j+w] and its target arr[j+w], the element right after it |
| Forecast.TransformAllSlice | templates/analysis.py:148-152 | scaling a column and then slicing equals slicing and then scaling |
| Forecast.LeadIn | templates/analysis.py:146-147 | the lead-in is the last min(100, len) training rows followed by the whole testing part |
| Forecast.TrainingWindowsAlign | templates/analysis.py:104-118 | there are k - 100 training windows (none at k <= 100); window j is the scaled closes j..j+99 and its target the scaled close j+100 |
| Forecast.LeadInIsContiguous | templates/analysis.py:146-147 | with at least 100 training rows, the lead-in plus testing is exactly close[k-100..], of length 100 + (N - k) |
| Forecast.TestWindowsAlign | templates/analysis.py:146-155 | one test window per testing day; window j is the scaled closes k-100+j..k+j-1 and its target the scaled testing[j] |
| Forecast.PredictAll | templates/analysis.py:156 | one prediction per window, the model's output on that window |
| Forecast.RescaledPredictions | templates/analysis.py:156-159 | each charted prediction is the model's output on its window times hi - lo |
| Forecast.ChartedPair | templates/analysis.py:146-160 | the charted "original" value for day k+j is close[k+j] - lo and the charted prediction is model(window j) * (hi - lo) |
| Forecast.RunForecast | templates/analysis.py:104-160 | no training rows is an error, 1 to 100 is the missing-window crash, so with the 70% split a history of 10 to 144 rows crashes and one of 146 rows or more succeeds; otherwise the training set and the chart are as in TrainingWindowsAlign and ChartedPair, with the scaler fitted on the training part |
| Indicators.LatestMetrics | templates/analysis.py:34-67 | an empty download stops the page and one row fails; otherwise the current price is the last close and the previous close plus delta gives it |
| Indicators.RollingMeanAt | templates/analysis.py:89-90 | row i has an average iff at least k rows end there, and then k times it is the sum of those k closes |
| Indicators.RollingMean | templates/analysis.py:89-90 | the averaged column has one entry per row |
| Indicators.RollingMeanDefinedFrom | templates/analysis.py:89-90 | the k-row rolling mean is missing before row k-1; from then on it is the sum of the last k closes over k |
| Indicators.RollingMeanOfConstant | templates/analysis.py:89-90 | a constant series v averages to v wherever the average is defined |
| Indicators.RollingMeanWithinWindow | templates/analysis.py:89-90 | each average lies between the lowest and the highest close of its window |
| Indicators.RollingMeanSlides | templates/analysis.py:89-90 | moving one row on adds (entering - leaving) / k to the average |
| Indicators.ChartedAverages | templates/analysis.py:89-90 | MA100 is drawn from row 99 and MA200 from row 199, so MA200 never without MA100; on 200 equal closes both equal the price |
| Series.MeanBetweenExtremes | templates/analysis.py:89-90 | a mean lies between the minimum and the maximum of its values |
| Series.Min | templates/home.py:11 | the minimum is an element and no element is below it |
| Series.Max | templates/home.py:12 | the maximum is an element and no element is above it |
| Series.Tail | templates/home.py:85 | `[-50:]` / `tail(n)` keeps the last min(n, len) elements, in order |
| Holders.FilterMapConcat | templates/analysis.py:226-249 | the table of a concatenation is the concatenation of the tables: row order is kept |
| Holders.FilterMapMembers | templates/analysis.py:266-313 | an output row is the image of some input row, every row with an image is output, and the table is no longer than the input |
| Holders.HolderPnL | templates/analysis.py:229-247 | a holder row is produced iff its date exists, is on or after the first bar and its entry price is non-zero; it carries the holder, the date, the nearest close as entry, the P&L percentage of current over entry, and PROFIT iff that percentage is positive |
| Holders.AnalyseHolders | templates/analysis.py:226-249 | the holder loop builds exactly the filtered and mapped table, in input order |
| Holders.PnLRowsFaithful | templates/analysis.py:229-247 | every P&L row comes from a holder dated on or after the first bar and is priced at the nearest close; PROFIT iff pnl > 0 (0 is LOSS); for a positive entry price, PROFIT iff the price rose |
| Holders.EligibleHolderListed | templates/analysis.py:231-240 | a holder dated on or after the first bar with a non-zero entry price does appear in the table |
| Holders.PercentChangeSign | templates/analysis.py:238-239 | for a positive base price the percentage change is positive iff the price rose |
| Holders.IsSale | templates/analysis.py:273-276 | a transaction is a sale iff "sale" occurs somewhere in its lower-cased text |
| Holders.SaleAnalysis | templates/analysis.py:273-311 | a sales row is produced iff the transaction is a sale with a date on or after the first bar and a non-zero sale price; it carries the insider, the date, the nearest close as sale price, the percentage difference, and Missed Gain iff the current price is higher |
| Holders.AnalyseInsiderSales | templates/analysis.py:266-313 | the insider loop builds exactly the filtered and mapped sales table, in input order |
| Holders.SaleRowsFaithful | templates/analysis.py:273-311 | every sales row comes from a transaction whose lower-cased text contains "sale", dated on or after the first bar; Missed Gain iff the current price exceeds the sale price (equal is Avoided Loss) |
| Holders.NonSalesExcluded | templates/analysis.py:273-276 | removing a transaction that does not mention a sale leaves the table unchanged |
| Text.Lower | templates/analysis.py:273 | same length, no upper-case letter left, other characters unchanged, letters lowered |
| Text.Contains | templates/analysis.py:276 | true iff the pattern occurs at some position |
| Text.Upper | templates/home.py:155 | same length, no lower-case letter left, other characters unchanged, letters raised |
| Text.UpperIdempotent | templates/home.py:155 | upper-casing twice equals upper-casing once |
| Home.SparkRange | templates/home.py:13 | the vertical range is always positive: max - min, or 1 for a flat series |
| Home.MakeSparkline | templates/home.py:8-18 | the point loop builds exactly the `Sparkline` points |
| Home.Sparkline | templates/home.py:8-18 | one point per value, or none for fewer than two values |
| Home.SparklineEmpty | templates/home.py:9-10 | there are no points (the "" result) iff there are fewer than two values |
| Home.SparklineEnds | templates/home.py:14-18 | one point per value, the first at x = 0 and the last at x = width |
| Home.SparklineXIncreasing | templates/home.py:16 | with a positive width, x strictly increases with the index |
| Home.SparklineInsideBox | templates/home.py:11-17 | every y lies in [0, height] |
| Home.SparklineExtremes | templates/home.py:11-17 | the minimum maps to y = height; the maximum maps to y = 0 when max != min |
| Home.SparklineFlat | templates/home.py:13-17 | a flat series uses range 1 and every point has y = height |
| Home.SparklineOrder | templates/home.py:17 | with a positive height, a higher value has a smaller y, and equal values have equal y |
| Home.PctChange | templates/home.py:83 | the change is finite iff the previous close is non-zero; otherwise it is +inf, -inf or NaN as the last close is positive, negative or zero |
| Home.BandOf | templates/home.py:95-106 | +inf is up, -inf is down, NaN is static (it fails both comparisons), and a finite change is static iff it lies in [-0.05, 0.05] |
| Home.BandThresholds | templates/home.py:95-106 | pct < -0.05 is down, pct > 0.05 is up, and [-0.05, 0.05], bounds included, is static: exactly one band |
| Home.PctChangeValue | templates/home.py:83 | for a non-zero previous close, the change times the previous close is 100 times the move from the previous close to the last |
| Home.BandFollowsPrice | templates/home.py:83-106 | for a positive previous close, up means the price rose and down means it fell; conversely, a rise of more than 0.05 % gives up and a fall of more than 0.05 % gives down; an unchanged price is static |
| Home.CardFallback | templates/home.py:65-92 | without data, or with a single close, the card shows "---", a static band and no sparkline |
| Home.CardFor | templates/home.py:65-92 | the card has no price iff there is no history or fewer than two closes, and then it is the default card; otherwise the price is the last close |
| Home.CardShowsRecentCloses | templates/home.py:79-85 | with two or more closes the card shows the last close, and the sparkline has one point per close among the last 50, in order, higher close drawn higher |
| Home.RenderCard | templates/home.py:65-92 | the per-ticker body of the grid loop yields exactly `CardFor` of that ticker's history |
| Home.RenderCards | templates/home.py:61-106 | the card loop yields one card per ticker, in order, each `CardFor` that ticker's history |
| Home.RenderHome | templates/home.py:40-61 | the grid has one card per watchlist ticker, in watchlist order, each `CardFor` its history |
| App.Route | app.py:25-29 | exactly one view per run: the grid iff nothing is selected, otherwise the selected ticker's analysis |
| App.Next | templates/home.py:143-155 | a selection is empty after a press iff Back was pressed or an empty search was made with nothing selected; an empty search never changes it |
| App.OnlyBackClears | templates/analysis.py:16-18 | a selection becomes None only through Back |
| App.SelectionTransitions | templates/home.py:143-155 | Analyze selects its ticker unchanged; a non-empty search selects exactly the upper-cased input (same length, no lower-case letter, searching it again changes nothing), and an empty input changes nothing |
| App.EnabledEventsSwitchView | app.py:25-29 | the grid's buttons open the analysis page (an empty search stays on the grid); Back returns to the grid |
| App.SessionState.InitSelection | app.py:19-20 | the selection is set to None only when absent; an existing selection survives a rerun |
| App.SessionState.CurrentView | app.py:25-29 | the grid is shown iff nothing is selected |
| App.SessionState.Run | app.py:19-29 | one script run initialises the selection if needed and then routes on it |
| App.SessionState.Analyze | templates/home.py:143-145 | the card button sets the selection to its ticker |
| App.SessionState.Search | templates/home.py:153-155 | the search sets the selection to the upper-cased input, or leaves it unchanged when the input is empty |
| App.SessionState.Back | templates/analysis.py:16-18 | Back clears the selection |

## Findings

| source | as written | input that shows it | evidently intended | confidence | as-written member | corrected member |
|---|---|---|---|---|---|---|
| templates/analysis.py:158-160 | the targets and predictions are multiplied by `1 / scale_`, that is by max - min, and the minimum is never added back | training closes [1, 2] and a test close of 2: the "Original Price" line shows 1 | `scaler.inverse_transform`, y * (max - min) + min, which returns original price units | high (not executed) | Forecast.RescaleCounterexample | Forecast.InverseRoundTrip |

`RunForecast` keeps the as-written rescale because that is what the page
charts. `RescaleIsInverseOnlyAtZeroMin` states the general gap. `InverseTransform` is
the corrected map, and `IntendedChart` states what the chart of `RunForecast`
becomes with it.

## Left out

- Forecast.RunForecast: a flat training part of more than 100 rows is excluded by `TrainingNotFlat`. In that case sklearn replaces the zero range by 1, and that handling is not modelled. Shorter flat parts are modelled and give `NoTrainingWindows`.
- Forecast.RunForecast: the split point is a parameter. `FloatSplitPoint` states its range, but not which of the two values the floating-point product gives; so for 145 rows the outcome is not stated.
- The Keras network is not modelled: its construction, its five training epochs and `model.predict` (templates/analysis.py:122-143, 156). Training is stochastic floating-point work. The trained network is the parameter `model`, one prediction per window.
- The "Start LSTM Training" button is a one-shot widget event, not kept state. The forecast branch is modelled as running when it is pressed.
- The yfinance downloads are network I/O and are not modelled (templates/analysis.py:29-33, templates/home.py:24-29). The overview data is a parameter, `Option<map<ticker, closes>>`, and the history a parameter `seq<real>`.
- The holder tables `institutional_holders`, `mutualfund_holders` and `insider_transactions` are parameters. The three plain table views (templates/analysis.py:191-217) only display them.
- `st.cache_data(ttl=60)` and `st.cache_data.clear()` are library caching and are not modelled.
- Rendering is not modelled: Streamlit widgets, matplotlib charts, progress bars, spinners, CSS (templates/styles.py has no logic) and the raw-data expander.
- Text output is not modelled: the `:.2f` strings, the SVG and HTML strings and `strftime`. The model keeps the numbers they are made from. A card's `price` None is the "---" text.
- The "High (Today)" and "Low (Today)" metrics (templates/analysis.py:72-75) only display the last row's values and are not modelled.
- Date parsing (`pd.to_datetime`) and pandas' nearest-date lookup are not modelled. Dates are day numbers, and the lookup is the parameter `closeNear`.
- The random like counter (`np.random.randint`) is not modelled.
- Exceptions: a holder or insider row whose processing raises is skipped, which the model represents as `None` from `HolderPnL` / `SaleAnalysis`. An unparseable date is treated like a missing one.
- Holders.HolderPnL: the model follows the path where `df['Close']` comes back as a one-column frame. There `.item()` (templates/analysis.py:64-65, 237) turns the prices into Python floats, a zero entry price makes the division raise, and the row is skipped. When `df['Close']` is a plain column the prices stay numpy scalars, and a zero entry price gives a percentage of +inf, -inf or NaN as the current price is positive, negative or zero. The row is then kept, PROFIT for +inf and LOSS otherwise. That plain-column path is not modelled.
- Holders.SaleAnalysis: likewise, a zero sale price is modelled as skipping the row, as on the one-column frame path (templates/analysis.py:288, 294-295). On the plain-column path the row is kept with a percentage of +inf, -inf or NaN, and Missed Gain iff the current price is positive. That path is not modelled.
- Home.PctChange: a zero previous close gives numpy's +inf, -inf or NaN from the sign of the last close. A negative zero is not distinguished.
- Text.Upper: only ASCII letters are raised. Python's `str.upper` also maps other Unicode letters.
- Text.Lower: only ASCII capitals are lowered. Python's `str.lower` also maps other Unicode letters, but none of them lowers into the letters of "sale", so `IsSale` is unaffected.
