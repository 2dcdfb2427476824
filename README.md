# Candlestick dashboard indicators in Dafny

A model of the computational core of a Streamlit dashboard (`main.py`). The dashboard
fetches hourly OHLC candles for a cryptocurrency pair from a public exchange API. It
adds a Stochastic Oscillator (%K, %D and four constant reference bands) and a simple
moving average to the pandas DataFrame, then plots them.

The model covers:

- **Rolling windows** (`rolling.dfy`): pandas' `rolling(window=w).min()/.max()/.mean()`
  on a column of optional reals. `None` stands for NaN. pandas' default
  `min_periods` is the window size, so a position has a value only when the full
  window exists and holds no NaN.
- **The data frame** (`ohlc.dfy`): the candle row, the column names of the core, and
  the table of eight columns built from the fetched rows.
- **The indicators** (`indicators.dfy`): `calculate_stochastic_oscillator` and
  `calculate_moving_average` as pure functions on tables.
- **Their properties** (`oscillator.dfy`, `moving_average.dfy`): these hold over
  well-formed candles (`low <= close <= high`, trusted from the exchange and never
  checked). They cover the [0, 100] bound, the flat window and when %K and %D are
  defined. For MA they cover the undefined prefix, the window bounds and the closes
  [1, 2, 3, 4, 5], window 3 example (`MovingAverage.SmallExample`).
- **The in-place frame** (`frame.dfy`): class `OhlcFrame`. Its two methods assign
  columns one after the other, as the Python functions do, and are proved equal to
  the pure functions.
- **The pair lookup** (`pairs.dfy`) and **the fetch decision** (`fetch.dfy`). The
  fetch works on an abstract response: the HTTP status and the members of the JSON
  `result` object.
- **The "Go" flow** (`dashboard.dfy`): main.py:84-91, both as written and corrected
  (see Findings).

Facts about the code that shape the model:

- `calculate_stochastic_oscillator` and `calculate_moving_average` assign columns of
  the frame they are given and return that same object. The model uses a class whose
  methods carry `modifies`.
- `window` is not validated (main.py:52-54), and the only caller passes 10
  (main.py:90). The model requires `window > 0`.
- On well-formed candles, a window whose lowest low equals its highest high gives
  0/0 in the %K formula, which pandas evaluates to NaN. The model gives `None`.
- Closes 10..23 with high = close + 1 and low = close - 1 give
  %K[13] = (23 - 9) / (24 - 9) * 100 = 280/3, as `Oscillator.RisingScenario` proves.

## Model

| member | source | states |
|---|---|---|
| `Rolling.Min` | main.py:32 | the window minimum is one of the window's values and is at most each of them |
| `Rolling.Max` | main.py:33 | the window maximum is one of the window's values and is at least each of them |
| `Rolling.Mean` | main.py:36 | the window mean lies between the window's minimum and maximum |
| `Rolling.SumBounds` | main.py:53 | a sum of n values in [lo, hi] lies in [n*lo, n*hi] |
| `Rolling.RollingMin` | main.py:32 | the rolling minimum has exactly one entry per input row |
| `Rolling.RollingMax` | main.py:33 | the rolling maximum has exactly one entry per input row |
| `Rolling.RollingMean` | main.py:53 | the rolling mean has exactly one entry per input row |
| `Rolling.RollingMinAt` | main.py:32 | `low_min[i]` is defined iff the 14 rows ending at i exist and hold no NaN; it is then one of `low[i-13..i]` and at most each of them |
| `Rolling.RollingMaxAt` | main.py:33 | `high_max[i]` is defined under the same condition; it is then one of `high[i-13..i]` and at least each of them |
| `Rolling.RollingMeanAt` | main.py:36 | a rolling mean is defined iff its window is complete; it is then the window sum over w, lies between the rolling min and max, and is bounded by window values |
| `Rolling.ShortSeriesUndefined` | main.py:53 | a series shorter than the window has no defined rolling min, max or mean anywhere |
| `Ohlc.ColumnOf` | main.py:15-18 | a fetched column has one defined value per candle, taken from that candle's field |
| `Ohlc.CandleTable` | main.py:15-16 | the fetched frame has exactly the eight named columns, each aligned to the candles |
| `Indicators.KValue` | main.py:35 | one %K value is defined iff close, the rolling low and the rolling high are defined and the range is non-zero; it then satisfies value * (high_max - low_min) == (close - low_min) * 100 |
| `Indicators.PercentK` | main.py:35 | %K has one entry per row |
| `Indicators.StochasticK` | main.py:32-35 | %K built from the 14-row rolling low and high has one entry per row |
| `Indicators.StochasticD` | main.py:36 | %D has one entry per row |
| `Indicators.Constant` | main.py:39-42 | a broadcast scalar column holds the scalar at every row |
| `Indicators.AddStochastic` | main.py:30-47 | the result is aligned and its columns are the input's minus `low_min`/`high_max` plus %K, %D and the four bands; every other column is unchanged; %K and %D come from low/high/close; Overbought = Expected_Max = 80 and Expected_Min = Oversold = 20 at every row |
| `Indicators.AddMovingAverage` | main.py:52-54 | the result is aligned, gains `MA` (the rolling mean of close) and changes no other column |
| `Indicators.StochasticKAt` | main.py:32-35 | %K[i] is defined iff close, the rolling low and the rolling high are defined and the range is non-zero; it then equals (close - low_min)/(high_max - low_min)*100; it is undefined for i < 13 |
| `Indicators.StochasticDAt` | main.py:36 | %D[i] is defined iff %K[i-2], %K[i-1] and %K[i] all are, and is then their mean |
| `Indicators.SumOfThree` | main.py:36 | a three-value window sums to the three values |
| `Indicators.StochasticDEarly` | main.py:32-36 | %D is undefined on the first 15 rows for any input |
| `Oscillator.CandleK` | main.py:32-35 | %K of a candle series has one entry per candle |
| `Oscillator.CandleD` | main.py:36 | %D of a candle series has one entry per candle |
| `Oscillator.RatioBounds` | main.py:35 | the %K formula maps a close inside a non-empty range into [0, 100] |
| `Oscillator.KValueInRange` | main.py:35 | a %K value whose close lies between the rolling low and high is in [0, 100] |
| `Oscillator.CloseWithinWindow` | main.py:32-33 | on well-formed candles, low_min <= close <= high_max once 14 candles exist |
| `Oscillator.CandleKInRange` | main.py:35 | on well-formed candles every defined %K lies in [0, 100] |
| `Oscillator.CandleKFlat` | main.py:32-35 | on well-formed candles a zero range forces close == low_min, so %K is 0/0 and undefined |
| `Oscillator.CandleKDefined` | main.py:32-35 | on well-formed candles %K[i] is defined iff i >= 13 and the 14-candle window is not flat at one price |
| `Oscillator.CandleKDefinedOnSpread` | main.py:32-36 | if every candle has high > low, %K is defined from row 13 and %D from row 15 |
| `Oscillator.CandleDInRange` | main.py:36 | on well-formed candles every defined %D lies in [0, 100] |
| `Oscillator.RisingScenario` | main.py:32-36 | closes 10..23 with high = close+1 and low = close-1 give %K[13] = 280/3 and an undefined %D[13] |
| `MovingAverage.CandleMA` | main.py:53 | MA over candles has one entry per candle |
| `MovingAverage.CandleMAAt` | main.py:53 | on fetched candles MA[i] is defined iff i >= window-1; it is then the sum of the window's closes over `window`, lies between the rolling min and max of the closes, and between two closes of its window |
| `MovingAverage.CandleMAShort` | main.py:53 | fewer candles than the window give an all-undefined MA |
| `MovingAverage.SmallExample` | main.py:53 | closes [1, 2, 3, 4, 5] with window 3 give [_, _, 2, 3, 4] |
| `MovingAverage.SmallExampleAt` | main.py:53 | one position of that example |
| `Frame.OhlcFrame.FromCandles` | main.py:15-19 | the new frame is valid, has one row per candle and holds the fetched table |
| `Frame.OhlcFrame.CalculateStochasticOscillator` | main.py:30-47 | the frame is updated in place to `AddStochastic` of its old columns and stays aligned |
| `Frame.OhlcFrame.CalculateMovingAverage` | main.py:52-54 | the frame is updated in place to `AddMovingAverage` of its old columns and stays aligned |
| `Pairs.LookupPair` | main.py:86 | `pair_mapping.get` gives the symbol for a known label and None, not an error, otherwise |
| `Pairs.SelectionAccepted` | main.py:86-87 | the `if selected_pair:` guard passes iff the label is a key of `pair_mapping`, so no mapped symbol is empty |
| `Pairs.SelectionAcceptedIffOffered` | main.py:62-87 | a label passes the `if selected_pair:` guard iff the dropdown offers it, so every offered label is mapped |
| `Pairs.MappingInjective` | main.py:71-81 | no two labels map to the same exchange symbol |
| `Fetch.FetchOhlcData` | main.py:9-26 | rows come back iff the status is 200 and the first `result` member is non-empty, and are then that member's rows; otherwise None with exactly one warning, the API-error one iff the status is not 200 |
| `Dashboard.IndicatorTable` | main.py:89-90 | the frame after both indicator calls has one entry per candle in every column (its contents: `Dashboard.IndicatorTableShape`) |
| `Dashboard.StochasticOfCandles` | main.py:89 | the stochastic of a fetched frame keeps its eight columns, adds the six new ones and holds the candles' %K and %D |
| `Dashboard.IndicatorTableShape` | main.py:88-90 | the frame after both calls is aligned, keeps the fetched columns, and holds the candles' %K, %D and MA over 10 closes |
| `Dashboard.RunAsWritten` | main.py:84-91 | as written, a TypeError happens only after "Go" on an accepted label; otherwise at most the chosen label is stored, and only with the indicator table of successfully fetched candles |
| `Dashboard.AsWrittenCrashesOnFailedFetch` | main.py:84-91 | as written, "Go" raises a TypeError iff an offered label's fetch returns None |
| `Dashboard.AsWrittenCrashesOnServerError` | main.py:88-89 | as written, "Go" on Bitcoin with a status-500 answer raises a TypeError |
| `Dashboard.Run` | main.py:84-91 | the corrected flow stores at most the chosen label, and stores it iff "Go" was pressed, the guard passes and the fetch returned rows |
| `Dashboard.RunStoresOfferedChoice` | main.py:84-91 | after "Go", a frame is stored iff the label is offered and its fetch succeeded |
| `Dashboard.RunStoresIndicators` | main.py:88-91 | a stored frame is non-empty, aligned to the candles, and holds their %K, %D and MA |
| `Dashboard.RunRefinesAsWritten` | main.py:84-91 | the corrected flow never fails and agrees with the as-written flow wherever that one does not fail |
| `Dashboard.ComputeIndicators` | main.py:88-90 | building the frame and running both in-place methods yields a fresh valid frame holding the indicator table |
| `Dashboard.Go` | main.py:84-91 | the in-place flow stores fresh, valid frames under exactly the keys of `Run`, each holding `Run`'s table |

## Left out

- HTTP and JSON (main.py:10-13): the request, its URL (with `interval=60`) and decoding are I/O. A response is a parameter, and the exchange is a function from pair symbol to response.
- Row parsing (main.py:14-18): turning JSON rows into floats is not modelled. Rows whose fields are not eight values `astype(float)` accepts, or a first `result` member that is not a list of rows, make main.py:14-18 raise; the model's rows are already candles.
- The datetime index (main.py:19), column dtypes and column order: `datetime` and `count` are held as reals, and a frame is a map from column name to column.
- Column names: a frame holds only the names that occur in the core (a datatype), and `Ohlc.Label` gives each one's pandas label.
- Floating point: pandas works in float64 and the model uses exact reals. Rounding is not modelled.
- `Indicators.KValue`: a zero divisor gives `None` in every case. pandas gives NaN only for 0/0 and ±inf when the close differs from the low. On well-formed candles only 0/0 can occur (`Oscillator.CandleKFlat`).
- `Indicators.AddStochastic` and `Frame.OhlcFrame.CalculateStochasticOscillator` require the `low`, `high` and `close` columns. Without them pandas raises a KeyError; the only caller passes a freshly fetched frame.
- `Frame.OhlcFrame.CalculateMovingAverage` requires `window > 0` and the `close` column. The code does no validation, and pandas' behaviour for other windows is not modelled; without `close` pandas raises a KeyError, and the only caller passes a frame that has it.
- `Indicators.AddMovingAverage` has the same two requirements, for the same reasons.
- The Streamlit and Plotly layer (main.py:57-67, main.py:93-195): widgets, figures, annotations and `st.write`. The "Go" button is a boolean parameter of `Dashboard.Run`, and `Dashboard.Go` is the corrected body of `if go_button:`.
- The y-axis range at main.py:150-152: it mixes a date string with a price and states nothing.
- `custom_menu.py` and the older copies under `Proyecto Final/`: they are UI, or earlier copies of the same functions without the bands.

## Findings

| source | as written | input that shows it | evidently intended | confidence | as-written member | corrected member |
|---|---|---|---|---|---|---|
| main.py:88-89 | the result of `fetch_ohlc_data` goes to `calculate_stochastic_oscillator` unchecked, and `None['low']` raises a TypeError | "Go" on Bitcoin while the exchange answers status 500, or 200 with an empty `result` | after the fetch's warning, skip the computation and leave `ohlc_data` empty | high; not executed | `Dashboard.AsWrittenCrashesOnFailedFetch` | `Dashboard.Run` |
