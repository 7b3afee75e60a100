# Energy dashboard backend — a Dafny model

This project models the backend of an energy dashboard. The backend pulls German
electricity-market series from SMARD and hourly weather from Open-Meteo into two
tables, `timeseries` and `weather_hourly`. On request, it forecasts the next
hours of load from the stored history.

Three pieces are modelled, one module each, over a shared base:

- `Base` (`base.dfy`): `Option` and `Result`, the minimum and maximum of a
  sequence, an order-preserving `Filter`, and a stable sort `SortBy` by an
  integer key.
- `Models` (`models.dfy`): the two row shapes, a `Tables` snapshot of the whole
  store, and the `Database` class whose `seq` fields the ingestion methods
  rewrite in place. Row ids come from autoincrement counters. The lookup index
  on (region, metric, resolution, ts) is not unique, so the store itself allows
  duplicate rows for one key and instant.
- `Clients` (`clients.dfy`): the upstream boundary. The three fetches are
  function-valued fields of an `Upstream` value. Each returns a reduced JSON
  document (an object, a bare list, or anything else) or fails. A failure
  stands for a raised HTTP or network error.
- `Ingest` (`ingest.dfy`): window-replace ingestion. It has specification
  functions over `Tables` (`Upsert`, `ReplaceWeather`, `IngestMetric`,
  `RunIngestion`), the imperative methods proved equal to them
  (`UpsertTimeseries`, `IngestSmardMetric`, `IngestWeather`,
  `RunIngestionPass`), and lemmas about the specification functions. A raised
  exception is `Raised(failure)` together with the tables as committed so far.
- `Forecast` (`forecast.dfy`): `make_features` as a pure function. It also has
  the training set and the recursive rollout (`Extend`, `Rollout`), plus the
  `RollForward` loop of `TrainAndForecast`, proved equal to the rollout. The regression model is
  an opaque `fit` from training examples to a predictor.
- `Api` (`main.dfy`): the `/timeseries` range query and the `/forecast`
  handler. The handler's stages are the weather window, the load and weather
  reads, the three count gates, the nearest-time join with a 2-hour tolerance,
  and the model run. `GatedRows` and `ForecastResponse` specify them, and the
  method `HandleForecast` is proved equal to them. The module also holds the
  ingestion trigger, which swallows every failure.

Instants are integer seconds since the Unix epoch, in UTC. Values are exact
reals. A null or NaN is `None`. The hour of day is `(t / 3600) % 24`. The
weekday is `(t / 86400 + 3) % 7`: Monday is 0, and 1970-01-01 was a Thursday.

Three behaviours of the code shape the model:

- `roll_6` is a six-row `rolling(6).mean()` (Backend/app/forecast.py:11), so
  it is undefined for the first five time-ordered rows. Training therefore
  sees at most L − 5 rows (`Forecast.TrainingSetIsSuffix`).
- The joined-rows gate tests `< 24` (Backend/app/main.py:116), while its error
  message says "need >= 48" (Backend/app/main.py:119). The error value carries
  both numbers (`Api.GatesInOrder`).
- `run_ingestion` (Backend/app/ingest.py:96-121) has no handler of its own.
  The first unit that raises ends the whole run, including the weather
  refresh, and only `_scheduled_ingest` catches it (Backend/app/main.py:128-135).
  Everything committed before the raise stays
  (`Ingest.ChunkFailureKeepsEarlierWindows`, `Ingest.WeatherOnceAfterMarket`).

## Model

| member | source | states |
|---|---|---|
| Models.Database.constructor | Backend/app/models.py:4-25 | a fresh schema: both tables empty, keys start at 1, every key distinct and below its counter |
| Ingest.UpsertTimeseries | Backend/app/ingest.py:12-29 | the delete-then-bulk-insert leaves the store exactly at `Upsert` of the old store and the batch |
| Ingest.UpsertEmptyIsNoop | Backend/app/ingest.py:14-15 | an empty batch changes nothing |
| Ingest.UpsertKeepsOutsideSpan | Backend/app/ingest.py:16-23 | rows of other keys, or outside the inclusive [min, max] span of the batch, are kept in order; weather is untouched |
| Ingest.UpsertDeletesSpan | Backend/app/ingest.py:16-23 | every old row of the key inside the span is gone afterwards |
| Ingest.UpsertWindowIsBatch | Backend/app/ingest.py:16-28 | afterwards the rows of the key inside the span are, as (ts, value), exactly the batch in batch order, duplicates included |
| Ingest.UpsertTwiceIsOnce | Backend/app/ingest.py:12-29 | replacing with the same batch twice stores the same rows as once, ids aside, for any batch |
| Ingest.UpsertKeepsKeysValid | Backend/app/ingest.py:25-29 | the autoincrement ids stay distinct and below the counter |
| Ingest.WeatherBatch | Backend/app/ingest.py:66-78 | an `hourly` entry that is present but not an object raises; no hours gives no rows; a column whose length differs from `time` raises; otherwise row i carries time i and each column's entry i, null exactly where that entry is null, independently per field |
| Ingest.NoHoursNoWrites | Backend/app/ingest.py:67-71 | with `hourly` an object or missing, an empty `time` list writes nothing |
| Ingest.ReplaceWeatherWindow | Backend/app/ingest.py:82-93 | the weather replace deletes by ts span only: rows outside it are kept, the span holds exactly the new rows, the series table is untouched |
| Ingest.ReplaceWeatherKeepsKeysValid | Backend/app/ingest.py:82-94 | the weather replace keeps every weather id distinct and below its counter |
| Ingest.ReplaceWeatherRows | Backend/app/ingest.py:82-94 | the in-place delete and insert leaves the store at `ReplaceWeather` of the old store |
| Ingest.IngestWeather | Backend/app/ingest.py:65-94 | fetch, parse and replace leave the store and the outcome at `IngestWeatherStep` of the fetched document |
| Ingest.FirstList | Backend/app/ingest.py:36-40 | the first key whose value is a list wins, even an empty one; non-list values are skipped; none found gives none |
| Ingest.ChunkIdsProbing | Backend/app/ingest.py:35-45 | "timestamps", then "data", then "values"; a bare list is used as is; anything else gives no ids |
| Ingest.ChunkList | Backend/app/ingest.py:35-42 | the probing loop with `break` finds exactly `ChunkIds` of the index document |
| Ingest.RecentChunks | Backend/app/ingest.py:47-49 | the last min(60, n) chunk ids, in index order |
| Ingest.NoChunkListNoWrites | Backend/app/ingest.py:44-45 | no chunk ids: nothing is written and nothing raises |
| Ingest.PointsFieldIsFirstTruthy | Backend/app/ingest.py:54 | the point list is the first truthy of "series", "data", "values" |
| Ingest.ChunkPoints | Backend/app/ingest.py:52-58 | a document that is not an object raises; no truthy points field gives no points; a truthy list gives exactly its items; a truthy object gives no points (an empty frame); a truthy scalar raises |
| Ingest.EmptyChunkIsSkipped | Backend/app/ingest.py:54-62 | a chunk without points, or whose points field is an object, writes nothing and does not raise |
| Ingest.EpochMsToUtc | Backend/app/ingest.py:59 | the instant is the whole second containing the millisecond stamp |
| Ingest.CleanBatch | Backend/app/ingest.py:58-60 | `dropna` never adds rows; with all points complete none is dropped, with none complete all are |
| Ingest.CleanBatchConvertsCompletePoints | Backend/app/ingest.py:58-60 | the cleaned batch is exactly the complete points, each with its stamp in UTC seconds and its value, in their order |
| Ingest.ChunksReadOnlyTheirChunks | Backend/app/ingest.py:49-52 | the chunk loop depends only on the fetched chunks it is given |
| Ingest.OnlyRecentChunksFetched | Backend/app/ingest.py:47-52 | a metric's ingestion depends only on the index and the last 60 chunks |
| Ingest.IngestChunksConcat | Backend/app/ingest.py:49-62 | chunks are processed in order; a raise ends the loop |
| Ingest.ChunkFailureKeepsEarlierWindows | Backend/app/ingest.py:49-62 | after a raise, the windows of the chunks before it stay committed and nothing else is written |
| Ingest.IngestOneChunk | Backend/app/ingest.py:52-62 | one chunk: a failed fetch or a non-object raises, a chunk without points writes nothing, otherwise its span is replaced; the store and the outcome end at `IngestChunk` |
| Ingest.IngestChunkList | Backend/app/ingest.py:49-62 | the chunk loop, with `continue` for empty chunks, leaves the store and the outcome at `IngestChunks` |
| Ingest.IngestChunksKeepsWeather | Backend/app/ingest.py:49-62 | SMARD ingestion never touches the weather table |
| Ingest.IngestChunkKeepsKeysValid | Backend/app/ingest.py:52-62 | one chunk keeps every primary key distinct and below its counter |
| Ingest.IngestChunksKeepsKeysValid | Backend/app/ingest.py:49-62 | the chunk loop keeps every primary key distinct and below its counter, raising or not |
| Ingest.IngestSmardMetric | Backend/app/ingest.py:31-62 | a failed index fetch raises, no chunk ids write nothing, otherwise the chunk loop runs on the last 60 ids: the store and the outcome end at `IngestMetric` |
| Ingest.MetricUnitsOrdered | Backend/app/ingest.py:108-116 | metrics run in the order load, wind, solar |
| Ingest.ResolutionUnitsOrdered | Backend/app/ingest.py:107-116 | resolutions run in the order quarterhour, hour, day, each with its metrics |
| Ingest.RegionUnitsOrdered | Backend/app/ingest.py:106-116 | regions run in the order DE, DE-LU, each with its resolutions |
| Ingest.UnitsInNestedOrder | Backend/app/ingest.py:106-116 | the units run in nested region × resolution × metric order |
| Ingest.MetricUnitsExact | Backend/app/ingest.py:108-109 | a metric unit runs exactly when its filter id is non-empty |
| Ingest.ResolutionUnitsExact | Backend/app/ingest.py:107-109 | every resolution contributes exactly its configured metrics |
| Ingest.RegionUnitsExact | Backend/app/ingest.py:106-109 | every region contributes exactly its configured units |
| Ingest.UnitsAreTheConfiguredOnes | Backend/app/ingest.py:100-116 | a unit runs exactly when its region, resolution and metric are listed and its filter id is set |
| Ingest.RunUnitsConcat | Backend/app/ingest.py:106-116 | units run in sequence; the first raise ends the run |
| Ingest.IngestMetricKeepsWeather | Backend/app/ingest.py:31-62 | a market unit never touches the weather table |
| Ingest.RunUnitsKeepsWeather | Backend/app/ingest.py:106-116 | the market units never touch the weather table |
| Ingest.RunUnitsKeepsKeysValid | Backend/app/ingest.py:106-116 | the market units keep every primary key distinct and below its counter, raising or not |
| Ingest.WeatherOnceAfterMarket | Backend/app/ingest.py:118-121 | weather is ingested exactly once, after all market units, and not at all after a raise |
| Ingest.RunIngestionKeepsKeysValid | Backend/app/ingest.py:96-121 | a whole pass, raising or not, keeps every primary key distinct and below its counter |
| Ingest.IngestConfiguredMetrics | Backend/app/ingest.py:108-116 | the inner metric loop leaves the store at `RunUnits` over that resolution's units |
| Ingest.ResolutionAdvance | Backend/app/ingest.py:107-116 | after one resolution's metrics, a raise is the raise of the whole region so far; otherwise the region continues from the next resolution |
| Ingest.IngestRegion | Backend/app/ingest.py:107-116 | the resolution loop of one region leaves the store and the outcome at `RunUnits` over that region's units |
| Ingest.RegionAdvance | Backend/app/ingest.py:106-116 | after one region, a raise is the raise of the whole market pass; otherwise the pass continues from the next region |
| Ingest.RunIngestionPass | Backend/app/ingest.py:96-121 | the triple loop and the weather refresh leave the store and the outcome at `RunIngestion` |
| Forecast.CalendarAdvances | Backend/app/forecast.py:7-8 | the hour lies in [0, 24) and the weekday in [0, 7); an hour later the hour moves on by one mod 24; a day later the weekday moves on by one mod 7; the epoch is a Thursday |
| Forecast.HourAdvances | Backend/app/forecast.py:7 | an hour later the hour of day is one more, mod 24 |
| Forecast.WeekdayAdvances | Backend/app/forecast.py:8 | a day later the weekday is one more, mod 7 |
| Forecast.SortByTs | Backend/app/forecast.py:6 | the rows sorted by instant: same rows, ascending |
| Forecast.MakeFeatures | Backend/app/forecast.py:5-6 | one feature row per input row; row i carries input row i of the time-ordered input |
| Forecast.MakeFeaturesColumns | Backend/app/forecast.py:5-12 | the rows are a permutation of the input, ascending by ts; hour and weekday from the row's ts, in range; lag_1 and lag_2 are the values one and two rows back and undefined before; roll_6 is the mean of the row and the five before, undefined for the first five |
| Forecast.TrainingSet | Backend/app/forecast.py:18-22 | never more examples than input rows |
| Forecast.ExampleAt | Backend/app/forecast.py:11-22 | from the sixth sorted row on every feature is defined, and the example built at row i has that row's value as label, its hour, weekday and three readings, rows i − 1 and i − 2 as lags and the mean of rows i − 5 through i as roll_6 |
| Forecast.TrainingSetIsSuffix | Backend/app/forecast.py:11-22 | training uses exactly max(L − 5, 0) rows; example k is the one built at sorted row k + 5: its label, hour, weekday and readings, lags from rows k + 4 and k + 3, roll_6 the mean of rows k through k + 5 |
| Forecast.Extend | Backend/app/forecast.py:56 | each step appends exactly one row to the working history |
| Forecast.ExtendPrefix | Backend/app/forecast.py:56 | later steps never rewrite earlier rows of the working history |
| Forecast.ExtendLastRow | Backend/app/forecast.py:31-38 | after m steps the last row is m hours after the history's last and carries its weather |
| Forecast.RolloutStep | Backend/app/forecast.py:52-56 | forecast point k is the row predicted from the working history after k steps |
| Forecast.RolloutRowsArePredictions | Backend/app/forecast.py:52-56 | the appended row j of the working history carries prediction j |
| Forecast.RolloutWorkingHistory | Backend/app/forecast.py:28-56 | after k steps the working history is the history followed by the first k predicted values |
| Forecast.Points | Backend/app/forecast.py:53 | one point per appended row, carrying that row's ts and value |
| Forecast.PointsSnoc | Backend/app/forecast.py:53-56 | appending a row to the working history reports exactly one more point, for that row |
| Forecast.RolloutClock | Backend/app/forecast.py:29-31 | max(horizon, 0) points; point k is k + 1 hours after the last history instant |
| Forecast.RolloutFeedsBack | Backend/app/forecast.py:34-56 | at step k the working history is the history followed by the first k predictions; lag_1 is prediction k − 1, lag_2 prediction k − 2 with the stated fall-backs, roll_6 the mean of the last min(6, n) of those values, weather the last history row's, calendar from the forecast instant |
| Forecast.RollForwardStep | Backend/app/forecast.py:31-56 | one turn of the loop appends exactly the next rollout row and reports its point |
| Forecast.RollForward | Backend/app/forecast.py:28-58 | the `for i in range(horizon)` loop returns exactly the rollout, empty for a horizon of 0 or less |
| Forecast.TrainAndForecast | Backend/app/forecast.py:14-58 | an empty training set raises; otherwise the loop returns exactly the rollout of the sorted history under the fitted model |
| Api.StatusCode | Backend/app/main.py:97-124 | every handler error is a 400 except the uncaught model failure |
| Api.RangeQuery | Backend/app/main.py:37-46 | exactly the rows of the key with start ≤ ts ≤ end, each as often as stored, ascending by ts |
| Api.Timeseries | Backend/app/main.py:25-47 | ascending, all inside the range, one answer per matching row |
| Api.TimeseriesIsExact | Backend/app/main.py:37-47 | a (ts, value) is answered exactly when a stored row of the key carries it inside the range |
| Api.TimeseriesSound | Backend/app/main.py:37-47 | every answered (ts, value) comes from a stored row of the key inside the range |
| Api.TimeseriesComplete | Backend/app/main.py:37-47 | every stored row of the key inside the range is answered |
| Api.WeatherBounds | Backend/app/main.py:56-64 | null exactly on an empty table; otherwise the least and greatest stored instant |
| Api.WeatherRange | Backend/app/main.py:83-92 | the weather rows of the window, a permutation of the matching rows, ascending |
| Api.WeatherWindowIsWholeTable | Backend/app/main.py:56-92 | the window is the table's own span, so the weather read returns every stored row |
| Api.LastAtOrBefore | Backend/app/main.py:106-111 | the backward candidate: the last row at or before the instant, none when all are later |
| Api.FirstAtOrAfter | Backend/app/main.py:106-111 | the forward candidate: the first row at or after the instant, none when all are earlier |
| Api.CandidatesBracket | Backend/app/main.py:106-111 | on sorted weather every row at or before the instant is no later than the backward candidate, and every row at or after it no earlier than the forward one |
| Api.NearestIndex | Backend/app/main.py:106-111 | the paired row, if any, is a weather row |
| Api.NearestIsClosest | Backend/app/main.py:106-111 | on sorted weather a row is paired exactly when one lies within 2 h inclusive; it is a nearest one; on a tie the earlier row wins |
| Api.JoinOne | Backend/app/main.py:106-112 | at most one joined row per load row, present exactly when it is paired with a row with all three readings, carrying the load row's ts and value and the paired row's three readings |
| Api.NearestStable | Backend/app/main.py:106-111 | widening the tolerance never changes an existing pairing, so a larger tolerance never loses a matched row |
| Api.MergeAsofNearest | Backend/app/main.py:106-112 | never more joined rows than load rows |
| Api.MergeAsofConcat | Backend/app/main.py:106-112 | the join works row by row and keeps the load order |
| Api.MergeAsofFromLoad | Backend/app/main.py:106-112 | every joined row carries the ts and value of some load row |
| Api.MergeAsofKeepsLoadOrder | Backend/app/main.py:106-112 | on ascending load rows the joined rows are ascending in ts |
| Api.GatesInOrder | Backend/app/main.py:55-120 | no weather, then load < 24, then weather < 24, then joined < 24 (message says 48); rows that pass number at least 24 |
| Api.ForecastFromShape | Backend/app/main.py:122-126 | with at least 24 joined rows the model trains on at least 19 rows; the answer is the rollout with `horizon` points, point k being k + 1 hours after the latest joined instant; only a horizon below 1 is the empty-output error |
| Api.PastGatesAlwaysForecasts | Backend/app/main.py:116-126 | for a valid horizon, the model-failure and empty-output paths cannot fire |
| Api.HandleForecast | Backend/app/main.py:49-126 | the handler answers exactly as `ForecastResponse` on the current store |
| Api.ScheduledIngest | Backend/app/main.py:128-137 | a run's failure is swallowed; the store is what the run committed up to the failure |
| Api.IngestNow | Backend/app/main.py:159-162 | always answers "ingest triggered", whatever the run did |

## Left out

- `start_scheduler`, the `scheduler_started` flag, `/health`, FastAPI routing, query validation and DB sessions are left out. They are framework bookkeeping. The horizon bound 1..72 is the `requires` of `Api.HandleForecast`.
- Concurrency is left out: interleaved ingestion passes and the non-atomic delete then insert. The model is sequential.
- `smard_client.py` and `weather_client.py` are not part of this model. They are the opaque functions of `Clients.Upstream`.
- Time zone localisation and daylight-saving time (`tz_localize`) are left out, and so is pandas datetime parsing. Weather `time` entries arrive as UTC instants.
- `Ingest.EpochMsToUtc`: the model keeps whole seconds only, not the sub-second part of a millisecond stamp.
- A SMARD points field holding an object whose keys include `ts_ms` or `value` is left out: an object is modelled as giving pandas an empty frame, which holds for objects without those keys.
- A weather answer whose top level is not an object, and a reading column that is JSON null, are left out. `payload.get` on a non-object raises, and pandas broadcasts a null column to every hour; the model treats a null column as a missing one.
- The `int()` conversion of chunk ids is left out: ids are integers already.
- Point entries that are not a `[ts_ms, value]` pair, such as rows of another width, are left out, and so is the error `pd.DataFrame(points, columns=...)` raises on them. `Clients.Point` is always a pair whose halves may be null, so the model has no input that raises there.
- Floating point, NaN propagation and `float()` casts are left out. Values are exact reals, and nulls are `Option`.
- RandomForest training and prediction, its 200 trees and seed 42 are left out. They are a foreign library: `fit` and the predictor are opaque functions.
- `Base.SortBy`: the model does not fix the order of rows with equal instants. pandas `sort_values` is not stable by default, and SQL `ORDER BY ts` leaves ties unspecified. The model uses a stable sort.
- The parsing of `OPENMETEO_LAT`, `OPENMETEO_LON`, `TZ` and the `SMARD_FILTER_*` variables is left out. They are the given `Ingest.Config`.
- Logging is left out, and so is the whole `Dashboard/` tree (a Streamlit UI).
