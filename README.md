# Traffic-flow prediction front end: the prediction data pipeline

The STGCN traffic-flow service returns a forecast as a JSON array of
intervals: one entry per five-minute step ahead, each an array over the
monitored routes, each route entry either a bare number or an array of
numbers. The React front end turns that forecast into three things:

* the **chart series** (`chartData` in `PredictionChart`): one point per
  interval, named `T+1`, `T+2`, …, with the least, greatest and mean value of
  the interval, and zeros when an interval yields no number;
* the **global statistics** (`stats` in `PredictionChart`): mean, median,
  least and greatest value over every number of every interval;
* the **plain-language summary** (`PredictionSummary`): min, max and average of
  the numbers found in per-route arrays, a traffic level out of five bands, and
  a travel recommendation;

and `App` holds the page state (loading flag, error, forecast, scenario,
confidence) that the predict button's handler resets and then fills from the
response, rendering the summary and chart only for a non-empty forecast.

The model, one Dafny module per concern:

* `Json` (json.dfy): JSON values as received, with NaN and JavaScript
  truthiness explicit; a missing property reads as `Null`.
* `Extraction` (extraction.dfy): the per-leaf rule
  `typeof value === 'number' ? value : parseFloat(value)` followed by the
  `!isNaN` filter, and the leaf loop shared by the three passes.
  `parseFloat` is a parameter `string -> Option<real>` (`None` is NaN), so the
  results hold for any parse function that returns a finite number or NaN.
* `Samples` (samples.dfy): sum, least, greatest, mean and the ascending sort
  (sorted and a permutation) over the accepted numbers.
* `Decimal` (decimal.dfy): the decimal text `${n}` of a label, with its
  round trip.
* `PredictionChart` (prediction_chart.dfy): the two `useMemo` passes as
  methods with loops (the running `Math.min` / `Math.max` seeded with
  ±Infinity, the `allValues` array), each proved equal to a specification
  function whose properties are lemmas.
* `PredictionSummary` (prediction_summary.dfy): the summary pass, the banding
  and the recommendation.
* `App` (app.dfy): `handlePredict` as a class with the five state fields, and
  the `||` chains of its error handling.
* `Scenarios` (scenarios.dfy): worked forecasts with their exact chart,
  statistics and summary.

### Behaviour of the code that differs from the documented design

The model follows the code in each case:

* The median is `sorted[Math.floor(n / 2)]`, the **upper** of the two middle
  values for an even count (`EvenCountMedian`: the median of 2 and 1 is 2), not
  the lower one.
* The summary pass enters only per-route **arrays**. A forecast whose route
  entries are bare numbers, or one with no accepted number at all, therefore
  has no summary (`FlatEntriesWithNoise`: `[[1, "NaN", null, 2]]` charts as
  min 1, max 2, avg 1.5, but its summary is null), and no level is chosen.
  The backend sends per-route arrays, so for its own responses the summary
  and the statistics pool the same numbers (`PoolsSplit`).
* A leaf that is itself an array is not discarded. `parseFloat(String(leaf))`
  reads the number in front of the first comma, so an array leaf yields the
  value of its first element, or nothing when it is empty (`DeeperNesting`:
  `[[[[5]]]]` contributes 5). This relies on `parseFloat(String(x)) == x` for a
  finite number `x`, and on parsing stopping at a comma.
* The chart and statistics passes are pure and idempotent by construction.
  Each is a method whose result equals a function of its input
  (`ChartData`, `Stats`, `Summarize`).

## Model

| member | source | states |
|---|---|---|
| Json.Field | frontend/src/App.tsx:53-56 | property access reads an object field when present; an object without the key, and any non-object value, reads as missing |
| Extraction.LeafRule | frontend/src/components/PredictionChart.tsx:45 | a number leaf is taken as it is, a string goes through parseFloat, null, booleans, NaN, objects and the empty array yield nothing, and a non-empty array leaf yields what its first element yields |
| Extraction.LeafSamplesMembers | frontend/src/components/PredictionChart.tsx:44-51 | a number is collected from a per-route array exactly when some leaf, after the number-or-parseFloat rule, is that number rather than NaN |
| Extraction.CollectLeaves | frontend/src/components/PredictionChart.tsx:95-100 | the leaf loop appends exactly the accepted numbers of the leaves, in order, to what was collected before |
| Samples.SumAppend | frontend/src/components/PredictionChart.tsx:116 | the fold `reduce((a, b) => a + b, 0)` adds one more sample to the running total |
| Samples.SumConcat | frontend/src/components/PredictionChart.tsx:116 | the sum of two runs of samples one after the other is the sum of their sums |
| Samples.Least | frontend/src/components/PredictionChart.tsx:49 | the running minimum is one of the samples and no sample is below it |
| Samples.Greatest | frontend/src/components/PredictionChart.tsx:50 | the running maximum is one of the samples and no sample is above it |
| Samples.MeanBetween | frontend/src/components/PredictionChart.tsx:116 | sum / count of samples inside any interval [lo, hi] stays inside it |
| Samples.Mean | frontend/src/components/PredictionChart.tsx:116 | the mean lies between the least and the greatest sample |
| Samples.SortAscending | frontend/src/components/PredictionChart.tsx:115 | the numeric sort returns an ascending permutation of the samples, of the same length |
| Samples.SortedEnds | frontend/src/components/PredictionChart.tsx:118-119 | the first sorted element is the least sample and the last is the greatest |
| Decimal.NatToString | frontend/src/components/PredictionChart.tsx:30 | the text of a number is a non-empty string of digits |
| Decimal.DigitsRoundTrip | frontend/src/components/PredictionChart.tsx:30 | reading the digits of a number back gives the number |
| Decimal.NatToStringInjective | frontend/src/components/PredictionChart.tsx:30 | distinct numbers have distinct texts |
| PredictionChart.LabelText | frontend/src/components/PredictionChart.tsx:30 | the label is `T+` followed by the decimal digits, without a leading zero, of the one-based position |
| PredictionChart.LabelsDistinct | frontend/src/components/PredictionChart.tsx:30 | two intervals get the same `T+n` label exactly when they are the same interval |
| PredictionChart.RouteSamplesMembers | frontend/src/components/PredictionChart.tsx:43-60 | a route entry contributes x exactly when it is the number x or an array with a leaf that yields x |
| PredictionChart.RoutesSamplesMembers | frontend/src/components/PredictionChart.tsx:41-62 | x is collected from an interval exactly when one of its route entries supplies x; strings, null and other entries contribute nothing |
| PredictionChart.IntervalPointMeaning | frontend/src/components/PredictionChart.tsx:29-69 | an entry is named `T+` and its one-based position; with no sample min, max and avg are 0; otherwise min and max are samples bounding all of them, and avg is sum / count between them |
| PredictionChart.MathMinMeaning | frontend/src/components/PredictionChart.tsx:49 | `Math.min` on the running minimum, seeded with Infinity, returns one of its two arguments and is at most both |
| PredictionChart.MathMaxMeaning | frontend/src/components/PredictionChart.tsx:50 | `Math.max` on the running maximum, seeded with -Infinity, returns one of its two arguments and is at least both |
| PredictionChart.RunningStep | frontend/src/components/PredictionChart.tsx:46-50 | adding one accepted number keeps sum, count, running min and running max in step with the numbers seen |
| PredictionChart.AccumulateLeaves | frontend/src/components/PredictionChart.tsx:44-52 | the leaf loop of the chart pass keeps the accumulator in step with every leaf number it accepts |
| PredictionChart.AccumulateInterval | frontend/src/components/PredictionChart.tsx:36-63 | after the route loop the accumulator holds the sum, count, min and max of exactly the interval's samples, with ±Infinity when there are none |
| PredictionChart.IntervalEntry | frontend/src/components/PredictionChart.tsx:29-69 | the entry assembled from the accumulator, with the Infinity fallbacks replaced by 0, is the interval's specified chart point |
| PredictionChart.SeriesAt | frontend/src/components/PredictionChart.tsx:28-72 | the series has one entry per interval and entry k describes interval k |
| PredictionChart.ChartData | frontend/src/components/PredictionChart.tsx:19-79 | the loop builds exactly the specified series, empty for an empty forecast |
| PredictionChart.PooledTotals | frontend/src/components/PredictionChart.tsx:90-116 | the pooled sum is the sum of the interval sums and the pooled count the sum of the interval counts |
| PredictionChart.GlobalStatsOf | frontend/src/components/PredictionChart.tsx:111-127 | all four statistics are 0 with no samples; otherwise min and max are the least and greatest, mean is sum / count between them, and the median is the sorted element at index floor(n / 2) |
| PredictionChart.CollectRoute | frontend/src/components/PredictionChart.tsx:92-107 | a route entry pushes its array leaves or its bare number, and nothing else |
| PredictionChart.CollectInterval | frontend/src/components/PredictionChart.tsx:91-108 | an interval pushes exactly its samples, in route order; a non-array interval pushes nothing |
| PredictionChart.Stats | frontend/src/components/PredictionChart.tsx:82-132 | the statistics pass returns the specified statistics of every sample of every interval |
| PredictionChart.GlobalMeanFromIntervals | frontend/src/components/PredictionChart.tsx:116 | the global mean is the interval sums added up over the interval counts added up, and that count is positive |
| PredictionSummary.GetTrafficCondition | frontend/src/components/PredictionSummary.tsx:39-45 | the chosen level is the one whose band contains the average |
| PredictionSummary.ConditionMatchesBand | frontend/src/components/PredictionSummary.tsx:39-45 | a level is chosen if and only if the average lies in its band, so the bands partition the reals |
| PredictionSummary.ConditionBoundaries | frontend/src/components/PredictionSummary.tsx:40-44 | the thresholds -1, 0, 0.5 and 1 fall to the heavier level |
| PredictionSummary.ConditionMonotone | frontend/src/components/PredictionSummary.tsx:39-45 | a larger average never gives a lighter level |
| PredictionSummary.NamesDistinct | frontend/src/components/PredictionSummary.tsx:40-44 | the five level names are pairwise distinct |
| PredictionSummary.Recommendation | frontend/src/components/PredictionSummary.tsx:89-91 | the advice is "it's a great time to travel!" exactly for Light and Very Light, and the advice to consider other times or routes otherwise |
| PredictionSummary.RecommendationIffNegative | frontend/src/components/PredictionSummary.tsx:89-91 | "a great time to travel" is advised exactly when the average is negative, that is, for Light and Very Light |
| PredictionSummary.RoutesSplit | frontend/src/components/PredictionSummary.tsx:16-25 | over one interval, the chart's samples are the summary's samples plus the bare numeric route entries, as multisets |
| PredictionSummary.PoolsSplit | frontend/src/components/PredictionSummary.tsx:13-27 | over the forecast, the chart's pool is the summary's pool plus the bare numbers, as multisets |
| PredictionSummary.SummaryOf | frontend/src/components/PredictionSummary.tsx:29-47 | no summary exactly when nothing was collected; otherwise min and max are the least and greatest value, avg is sum / count between them, the level's band contains avg, and the advice is positive exactly when avg is negative |
| PredictionSummary.CollectRoute | frontend/src/components/PredictionSummary.tsx:17-24 | only a per-route array contributes, and then exactly its accepted leaves |
| PredictionSummary.CollectInterval | frontend/src/components/PredictionSummary.tsx:15-26 | an interval pushes exactly the leaves of its per-route arrays and ignores bare numbers |
| PredictionSummary.Summarize | frontend/src/components/PredictionSummary.tsx:8-47 | the component's result is the specified summary of the nested values, null exactly when none was collected, including for an empty forecast |
| App.FirstTruthyIndex | frontend/src/App.tsx:61 | a chain of `or` operands picks the first truthy operand, or the last one when none is truthy |
| App.ErrorMessage | frontend/src/App.tsx:61 | the shown error is the server's error if truthy, else the exception message if non-empty, else the fallback text; it is never empty |
| App.OrNull | frontend/src/App.tsx:55-56 | replacing a falsy value by null keeps x exactly when it is truthy |
| App.Settle | frontend/src/App.tsx:49-63 | results load exactly when the response data has a truthy `predictions`; a falsy one gives "Invalid response format"; a rejection takes the error chain; a null body fails through the same chain with the TypeError's message |
| App.HasRows | frontend/src/App.tsx:191-198 | the render guard passes only for a truthy forecast, and for an array exactly when it is non-empty |
| App.ServerErrorShown | frontend/src/App.tsx:61 | a server-reported error string is shown verbatim whatever the exception message |
| App.PredictionPage.constructor | frontend/src/App.tsx:23-27 | the page starts not loading, with no error, an empty forecast and no scenario or confidence |
| App.PredictionPage.BeginPredict | frontend/src/App.tsx:43-47 | the handler first sets loading and clears error, forecast, scenario and confidence, so no results are rendered |
| App.PredictionPage.FinishPredict | frontend/src/App.tsx:49-66 | on success the forecast, scenario and confidence are replaced and the error kept; on failure only the error is set; loading ends in both cases |
| App.PredictionPage.HandlePredict | frontend/src/App.tsx:42-67 | after a request loading is false; on success the new results are stored with no error; on failure the error shows and, by the render guard, neither the summary nor the chart does |
| Scenarios.EmptyForecast | frontend/src/components/PredictionChart.tsx:86-88 | an empty forecast gives no samples, all-zero statistics and no summary |
| Scenarios.FirstLabel | frontend/src/components/PredictionChart.tsx:30 | the first interval is labelled `T+1` |
| Scenarios.ThreeSorted | frontend/src/components/PredictionChart.tsx:115 | 0.2, 0.4, 0.6 sort to themselves |
| Scenarios.ThreeExtremes | frontend/src/components/PredictionChart.tsx:49-50 | the least and greatest of 0.2, 0.4, 0.6 are 0.2 and 0.6 |
| Scenarios.ThreeMean | frontend/src/components/PredictionChart.tsx:116 | the mean of 0.2, 0.4, 0.6 is 0.4 |
| Scenarios.ThreeStats | frontend/src/components/PredictionChart.tsx:115-119 | the statistics of 0.2, 0.4, 0.6 are mean 0.4, median 0.4, min 0.2, max 0.6 |
| Scenarios.ThreeSamplesCollected | frontend/src/components/PredictionChart.tsx:90-109 | `[[[0.2, 0.4], [0.6]]]` yields 0.2, 0.4, 0.6 to both the chart and the summary |
| Scenarios.SingleNestedIntervalChart | frontend/src/components/PredictionChart.tsx:28-72 | that forecast charts as one point `T+1` with min 0.2, max 0.6, avg 0.4 |
| Scenarios.SingleNestedIntervalStats | frontend/src/components/PredictionChart.tsx:82-132 | that forecast has mean 0.4, median 0.4, min 0.2, max 0.6 |
| Scenarios.SingleNestedIntervalSummary | frontend/src/components/PredictionSummary.tsx:29-47 | that forecast summarises as min 0.2, max 0.6, avg 0.4, Moderate |
| Scenarios.NoisyRoutes | frontend/src/components/PredictionChart.tsx:41-62 | route entries 1, "NaN", null, 2 give the chart 1 and 2 and the summary nothing |
| Scenarios.TwoSamples | frontend/src/components/PredictionChart.tsx:65-69 | 1 and 2 have min 1, max 2, mean 1.5 |
| Scenarios.FlatEntriesWithNoise | frontend/src/components/PredictionSummary.tsx:13-31 | `[[1, "NaN", null, 2]]` charts as `T+1` with min 1, max 2, avg 1.5, and has no summary |
| Scenarios.TwoSorted | frontend/src/components/PredictionChart.tsx:115 | 2, 1 sort to 1, 2 |
| Scenarios.EvenCountMedian | frontend/src/components/PredictionChart.tsx:117 | the median of an even count is the upper middle value: 2 for 2 and 1 |
| Scenarios.DeeperNesting | frontend/src/components/PredictionChart.tsx:44-51 | a leaf that is an array `[5]` contributes 5 |
| Scenarios.NegativeSamples | frontend/src/components/PredictionSummary.tsx:13-27 | `[[[-1, -2]]]` yields -1 and -2 to the summary |
| Scenarios.NegativeSorted | frontend/src/components/PredictionSummary.tsx:33-36 | -1, -2 sort to -2, -1 and average -1.5 |
| Scenarios.EmptyPredictionsStored | frontend/src/App.tsx:53-56 | a response with `predictions: []` counts as a success, stores the empty forecast with no error, and renders no summary or chart |
| Scenarios.VeryLightForecast | frontend/src/components/PredictionSummary.tsx:39-91 | that forecast is Very Light and advised as a great time to travel |

## Left out

- The backend (app.py), the model evaluation script, and the Dashboard and ModelStatus components are not part of this model.
- The HTTP request, its asynchrony and React's scheduling of state updates are left out; a request's outcome is a `Response` parameter, and the handler's state changes are applied in program order.
- fetchModelInfo and the model-info state are left out: they only display metadata.
- Rendering is left out: JSX, styles, `toFixed` formatting, console logging, the confidence colour thresholds, and the render-level try/catch.
- Extraction.LeafNumber: an object leaf with an own `toString` key makes `parseFloat` throw (its conversion to a string finds no callable `toString` and `valueOf` gives back an object), and so does an array leaf holding such an object. The model drops such a leaf instead. So it does not capture the empty chart and the zero statistics that the two `useMemo` catch blocks (PredictionChart.tsx:75-78, 128-131) then return, nor the summary's uncaught error during render.
- Infinite numbers are left out: every result holds only for a `parseFloat` that returns a finite number or NaN, and for finite JSON numbers. The real `parseFloat("Infinity")` or `parseFloat("1e999")` gives ±Infinity, which `!isNaN` accepts, and JSON.parse reads a literal like `1e400` as Infinity. An interval whose only leaf is `"Infinity"` would then chart min 0, because this value collides with the Infinity sentinel at PredictionChart.tsx:68, and its max and avg are Infinity. These cases are not modelled, and neither are the `isNaN` guards on the statistics (PredictionChart.tsx:123-126) that only such values can trip.
- `parseFloat`'s grammar is a parameter, not a definition. For string leaves the results hold for every such function that returns a finite number or NaN; the array-leaf rule assumes `parseFloat(String(x)) == x` for finite x and that parsing stops at a comma.
- Extraction.LeafNumber: a leaf that is an array takes the value of its first element. This covers JavaScript's `String` of an array only through that comma rule.
- Floating-point rounding is left out: sums and means are exact reals.
- The components receive the forecast as a sequence of values. A truthy non-array `predictions` that passes App's render guard (a non-empty string, or an object with a `length` property) is left out.
- App.Settle: a null response body fails with the V8 TypeError message. Other engines word that message differently.
- Level colours and names are data (`Level.Color`, `Level.Name`) without a contract of their own; only their distinctness is proved.
