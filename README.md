# Daily sales forecasting per channel, modelled in Dafny

This project models the deterministic part of the forecasting script `main.py`,
which predicts one day's sales for each sales channel from transaction
records. The script does four things:

1. It turns the records of one channel into a gap-free daily series (`prepare_time_series`).
2. It fits an ARIMA(5, 1, 0) model to that series and asks for the number of
   forecast steps that reaches the target date.
3. It looks up the target date's row (forecast, lower and upper 90% interval
   limits) in a forecast table indexed by consecutive days.
4. It scores that row with a 0–100 confidence percentage (`calculate_confidence_from_intervals`).

All of this runs in a loop over the fixed channel list "Online", "In-Store", "Mobile".

Calendar dates are integer day numbers. Amounts are natural numbers (integer
minor units). Interval arithmetic is exact `real`.

Files, one module each:

- `wrappers.dfy`: `Option` and `Result`.
- `daily_series.dfy` (module `DailySeries`): filter by channel, group-by-day
  sum as a `map`, daily re-indexing between the first and last observed day.
- `forecasting.dfy` (module `Forecasting`): the step count, the forecast date
  index, and the lookup of the target row.
- `confidence.dfy` (module `Confidence`): relative interval width and score.
  A zero forecast gives an IEEE infinity or not-a-number, as the script's
  64-bit float scalars do, rather than an error.
- `pipeline.dfy` (module `Pipeline`): the per-channel computation as a
  function, `PredictChannel`, and the driver loop as a method, `PredictAll`.
  `PredictAll` is proved to return exactly what `PredictChannel` gives for
  each channel, in order; `PredictDefault` runs it on the script's fixed list.

The statistical library is a parameter, `Pipeline.Arima`. It says whether
fitting a series succeeds, and gives the estimate for forecast step h
(h = 1 is the day after the series ends).

Behaviour of the script worth noting:

- The step count is `(target − last) + 1`. So the table runs one day past
  the target, and the target is its next-to-last row. With target == last
  there is one step, dated the day after, so the lookup misses.
- `main` has no error handling. The first channel that fails ends the run: the
  channels before it have reported, and later ones are not processed.
  `PredictAll` returns the reports so far plus the failing channel and its reason.
- A zero forecast raises nothing. The relative width is +inf, −inf or NaN, and
  the score is 0 (width ≥ 0) or 100 (width < 0).
- A negative forecast with a proper interval always scores 100, however wide
  the interval (`Confidence.NegativeForecastFullConfidence`).

## Model

| member | source | states |
|---|---|---|
| DailySeries.Filter | main.py:15 | the filtered table is no longer than the input |
| DailySeries.FilterMembers | main.py:15 | a record survives the filter exactly when it is in the input and its channel name equals the requested one |
| DailySeries.GroupByDayKeys | main.py:16 | the group-by has a key for a day exactly when some record carries that day |
| DailySeries.GroupByDayTotal | main.py:16 | the group-by value for a day is the sum of the amounts of that day's records (an absent key reads as 0) |
| DailySeries.MinDayIsLeast | main.py:17 | the series start is no later than any record's day, and some record carries it |
| DailySeries.MaxDayIsGreatest | main.py:17 | the series end is no earlier than any record's day, and some record carries it |
| DailySeries.GroupByDay | main.py:16 | a keyed sum per day; its keys and values are stated by GroupByDayKeys and GroupByDayTotal |
| DailySeries.MinDay | main.py:17 | no later than the first record's day; GroupByDay's least key, as MinDayIsLeast states |
| DailySeries.MaxDay | main.py:17 | no earlier than the first record's day; GroupByDay's greatest key, as MaxDayIsGreatest states |
| DailySeries.AsFreq | main.py:17 | daily re-indexing from lo to hi starts at lo and has exactly hi − lo + 1 entries |
| DailySeries.Aggregate | main.py:13-18 | the channel's daily series; its span, entries and total are stated by AggregateEmpty, AggregateSpan, AggregateValue and AggregateTotal |
| DailySeries.LastDay | main.py:96 | the last index label of a non-empty series, never before its start |
| DailySeries.AggregateEmpty | main.py:15-17 | the series is empty if and only if no record has the requested channel |
| DailySeries.AggregateSpan | main.py:15-17 | a non-empty series runs from the channel's earliest to its latest record day, one entry per day; every record of the channel falls inside it |
| DailySeries.AggregateValue | main.py:15-17 | entry i equals the channel's amount summed over its records on day start + i, computed independently from the raw records |
| DailySeries.AggregateGapIsZero | main.py:17 | a day inside the span with no record of the channel holds 0 |
| DailySeries.FilterDayTotal | main.py:15-16 | summing one day over the filtered records equals summing that day over the channel's records of the unfiltered input |
| DailySeries.FilterTotal | main.py:15 | the filtered records' total equals the channel's total over the input |
| DailySeries.AmountOnAbsent | main.py:17 | a channel has amount 0 on a day none of its records carries |
| DailySeries.AggregateTotal | main.py:15-17 | the series values sum to the channel's total amount: nothing is lost or created |
| DailySeries.OtherChannelIgnored | main.py:15 | adding a record of another channel, before or after the rest, leaves the series unchanged |
| DailySeries.OthersIgnored | main.py:15 | dropping every record of other channels, however many and wherever they stand, leaves the series unchanged |
| DailySeries.AggregatePermutation | main.py:16-17 | any reordering of the records gives the same series |
| Forecasting.Steps | main.py:96 | last + steps = target + 1: the table reaches one day past the target |
| Forecasting.DateRange | main.py:32 | a daily date range has `periods` entries, entry i being start + i |
| Forecasting.ForecastIndexShape | main.py:32 | the forecast index has exactly `steps` entries, the first the day after the last observed day, each one day after the previous |
| Forecasting.ForecastIndex | main.py:32 | one label per step; its dates are stated by ForecastIndexShape |
| Forecasting.SelectTarget | main.py:34-40 | a selected row is one of the table's rows; which one is stated by SelectTargetRow |
| Forecasting.Locate | main.py:40 | a label lookup returns a position holding the target with no earlier match, and misses exactly when the target is not in the index |
| Forecasting.LocateInRange | main.py:32-40 | in a date range, the target is found exactly when it lies inside the range, at its offset from the start |
| Forecasting.TargetFound | main.py:96 | with steps = (target − last) + 1 ≥ 1, the target is in the forecast index if and only if target > last, and then it sits at position target − last − 1 = steps − 2 |
| Forecasting.SelectTargetRow | main.py:34-40 | the selected row is row target − last − 1 when the target lies within the table's dates, and there is none otherwise |
| Confidence.Divide | main.py:54 | the quotient is finite exactly when the forecast is non-zero, and then quotient × forecast = width; otherwise ±inf by the sign of the width |
| Confidence.RelativeWidth | main.py:51-54 | width / forecast × 100 with float semantics; stated by RelativeWidthDefined and ZeroForecast |
| Confidence.Score | main.py:57-65 | the score is in [0, 100], exactly 100 at or below the 10% threshold, and max(0, 100 − (rel − 10)) above it |
| Confidence.ConfidenceOf | main.py:44-65 | every forecast row scores in [0, 100] |
| Confidence.RelativeWidthDefined | main.py:51-54 | the relative width is a finite number exactly when the forecast is non-zero, and then rel × forecast = width × 100 |
| Confidence.FullConfidenceUpToThreshold | main.py:59-60 | a relative width ≤ 10, including exactly 10, scores 100 |
| Confidence.ScoreBeyondThreshold | main.py:61-63 | above 10, the score is 110 − rel, and 0 from 110 on; it is then below 100 |
| Confidence.ScoreMonotone | main.py:59-63 | the score never increases as the relative width increases |
| Confidence.PositiveForecast | main.py:51-63 | for a positive forecast: score 100 exactly when width ≤ forecast / 10, score 0 exactly when width ≥ 1.1 × forecast, and score × forecast = 110 × forecast − 100 × width in between |
| Confidence.WiderIntervalLessConfidence | main.py:51-63 | for a fixed positive forecast, a wider interval never scores higher |
| Confidence.ZeroForecast | main.py:51-63 | a zero forecast scores 0 when the width is ≥ 0 and 100 when it is negative; no error is raised |
| Confidence.NegativeForecastFullConfidence | main.py:54-60 | a negative forecast with lower ≤ upper always scores 100 |
| Confidence.ScoreExamples | main.py:51-63 | forecast 100 with interval [95, 105] scores 100; with [70, 130] it scores 50 |
| Pipeline.PredictAll | main.py:82-105 | one report per channel in list order, each equal to that channel's `PredictChannel` result; the first failing channel stops the loop and is returned with its failure |
| Pipeline.PredictDefault | main.py:82-105 | the driver on the fixed list "Online", "In-Store", "Mobile": the same per-channel results in that order, stopping at the first failure |
| Pipeline.ForecastRows | main.py:28-38 | the forecast table has one row per requested step, row k being the estimate for step k + 1 |
| Pipeline.PredictChannel | main.py:90-104 | one channel's outcome; stated case by case by PredictChannelOutcome and PredictChannelSucceeds |
| Pipeline.PredictChannelOutcome | main.py:90-104 | the outcome, case by case: fit failure; empty series; target before the last day (no forecast step); target on the last day (no row for it); target after it, giving the model's estimate for step target − last and that estimate's score |
| Pipeline.PredictChannelSucceeds | main.py:90-104 | a channel gets a forecast exactly when the fit succeeds, the channel has a record, and all its records are dated before the target |
| Pipeline.ReportWellFormed | main.py:97-105 | a report names the channel it was asked for and carries a confidence in [0, 100] |
| Pipeline.ChannelsIndependent | main.py:86-97 | a record of another channel does not change a channel's outcome |
| Pipeline.OnlyOwnRecordsMatter | main.py:86-97 | a channel's outcome on all records equals its outcome on its own records alone |

## Left out

- In-place date conversion (main.py:14): the script overwrites the caller's
  date column with parsed timestamps. Records here already carry day numbers,
  so the conversion is the identity and its side effect on the caller's table
  is not modelled.
- ARIMA fitting and forecasting (main.py:21-30): foreign numerical code. It is
  the parameter `Pipeline.Arima`, whose success and estimates are opaque. Three
  things are assumed of the library: it names the first forecast day as the
  day after the series ends; it raises when asked for fewer than one step
  (`HorizonNotPositive`); and the estimate for a step does not depend on how
  many steps were requested.
- The `DataFrame` built from the forecast (main.py:34-38) aligns the library's
  series on their date labels. It is modelled as the table whose row k is the
  estimate for step k + 1, so a misaligned result from the library is not captured.
- File input (main.py:7-10, main.py:75, main.py:78) and the left join with the
  channel table (main.py:79). Records carry their channel name directly. A row
  whose channel id has no name gets a missing value, which no channel name
  equals; such a row is a record with some other name.
- Command-line parsing and the parsing of the target date string
  (main.py:68-72, main.py:85). The target is a day number, and `.loc` is taken
  as an exact match on that day.
- Printing and 2-decimal formatting (main.py:87, main.py:101, main.py:105):
  reports are returned instead.
- The `is not None` test (main.py:99): the lookup returns a row or raises, so
  the test always passes and has no counterpart.
- Floating-point rounding: the score uses exact `real` arithmetic. Signed zero
  is not modelled either. A forecast of −0.0 with a positive width gives −inf
  and would score 100, where the model scores 0.
- Non-finite estimates: `Estimate` holds finite reals only, so a NaN or
  infinite forecast or interval limit from the library cannot be represented.
  The script would still score such a row: a NaN relative width fails the
  `<= 10` test and `max(0, nan)` returns 0, so it scores 0; an infinite limit
  or forecast makes the relative width 0, ±inf or NaN, scored by the same
  comparison and `max`.
- generator.py: random synthetic data generation and file output. It depends
  on a random number generator and has no contract to state.
