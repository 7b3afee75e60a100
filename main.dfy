/** The API's data paths (`Backend/app/main.py`): the `/timeseries` range
    query, the `/forecast` handler with its gates and nearest-hour join, and
    the ingestion trigger that swallows every failure. */
module Api {
  import opened Base
  import opened Models
  import opened Clients
  import opened Ingest
  import opened Forecast

  /** Each of the three count gates asks for this many rows. */
  const MinRows: nat := 24

  /** The joined-rows error message states this need, although the gate
      itself tests against `MinRows`. */
  const StatedJoinedNeed: nat := 48

  /** The join tolerance, two hours, inclusive. */
  const Tolerance: nat := 7200

  /** Why `/forecast` answered with an error instead of a forecast. All are
      HTTP 400 except `ModelFailed`, an exception the handler does not catch. */
  datatype ForecastError =
    | NoWeather
    | NotEnoughLoad(have: nat)
    | NotEnoughWeather(have: nat)
    | NotEnoughJoined(have: nat, statedNeed: nat)
    | ModelFailed
    | EmptyForecast

  function StatusCode(e: ForecastError): (code: int)
    ensures code == 400 || code == 500
    ensures code == 500 <==> e == ModelFailed
  {
    if e == ModelFailed then 500 else 400
  }

  function PointTs(p: TimeSeriesPoint): int { p.ts }

  function StoredWeatherTs(w: WeatherPoint): int { w.ts }

  // ---------------------------------------------------------------------------
  // Range queries
  // ---------------------------------------------------------------------------

  /** `SELECT ... WHERE region, metric, resolution match AND start <= ts <= end
      ORDER BY ts`: exactly the matching rows, each as often as stored, in
      ascending order of instant. */
  function RangeQuery(rows: seq<TimeSeriesPoint>, region: string, metric: string, resolution: string,
                      start: Timestamp, end: Timestamp): (r: seq<TimeSeriesPoint>)
    ensures SortedBy(r, PointTs)
    ensures multiset(r) == multiset(Filter(rows, Hit(region, metric, resolution, start, end)))
    ensures |r| == |Filter(rows, Hit(region, metric, resolution, start, end))|
    ensures forall p :: p in r <==> p in rows && InSpan(p, region, metric, resolution, start, end)
    ensures forall i :: 0 <= i < |r| ==> InSpan(r[i], region, metric, resolution, start, end)
  {
    var hits := Filter(rows, Hit(region, metric, resolution, start, end));
    var r := SortBy(hits, PointTs);
    SameElements(r, hits);
    forall i | 0 <= i < |r| ensures InSpan(r[i], region, metric, resolution, start, end) {
      assert r[i] in hits;
    }
    forall p | p in rows && InSpan(p, region, metric, resolution, start, end) ensures p in hits {
      var i :| 0 <= i < |rows| && rows[i] == p;
      assert Hit(region, metric, resolution, start, end)(rows[i]);
    }
    r
  }

  /** `/timeseries`: the (ts, value) of every row of the key with
      `start <= ts <= end`, ascending. */
  function Timeseries(t: Tables, region: string, metric: string, resolution: string,
                      start: Timestamp, end: Timestamp): (r: seq<Sample>)
    ensures forall i, j :: 0 <= i < j < |r| ==> r[i].ts <= r[j].ts
    ensures forall i :: 0 <= i < |r| ==> start <= r[i].ts <= end
    ensures |r| == |Filter(t.timeseries, Hit(region, metric, resolution, start, end))|
  {
    SamplesOf(RangeQuery(t.timeseries, region, metric, resolution, start, end))
  }

  /** A sample is answered by `/timeseries` exactly when some stored row of
      the key carries it inside the range. */
  lemma TimeseriesIsExact(t: Tables, region: string, metric: string, resolution: string,
                          start: Timestamp, end: Timestamp, s: Sample)
    ensures s in Timeseries(t, region, metric, resolution, start, end) <==>
            exists p :: p in t.timeseries && InSpan(p, region, metric, resolution, start, end)
                        && p.ts == s.ts && p.value == s.value
  {
    if s in Timeseries(t, region, metric, resolution, start, end) {
      TimeseriesSound(t, region, metric, resolution, start, end, s);
    }
    if exists p :: p in t.timeseries && InSpan(p, region, metric, resolution, start, end)
                   && p.ts == s.ts && p.value == s.value {
      var p :| p in t.timeseries && InSpan(p, region, metric, resolution, start, end)
               && p.ts == s.ts && p.value == s.value;
      TimeseriesComplete(t, region, metric, resolution, start, end, p);
    }
  }

  /** Every returned sample comes from a stored row in the span. */
  lemma TimeseriesSound(t: Tables, region: string, metric: string, resolution: string,
                        start: Timestamp, end: Timestamp, s: Sample)
    requires s in Timeseries(t, region, metric, resolution, start, end)
    ensures exists p :: p in t.timeseries && InSpan(p, region, metric, resolution, start, end)
                        && p.ts == s.ts && p.value == s.value
  {
    var q := RangeQuery(t.timeseries, region, metric, resolution, start, end);
    var r := Timeseries(t, region, metric, resolution, start, end);
    assert r == SamplesOf(q);
    var i :| 0 <= i < |r| && r[i] == s;
    assert q[i] in q;
    assert q[i] in t.timeseries && q[i].ts == s.ts && q[i].value == s.value;
  }

  /** Every stored row in the span is returned. */
  lemma TimeseriesComplete(t: Tables, region: string, metric: string, resolution: string,
                           start: Timestamp, end: Timestamp, p: TimeSeriesPoint)
    requires p in t.timeseries && InSpan(p, region, metric, resolution, start, end)
    ensures Sample(p.ts, p.value) in Timeseries(t, region, metric, resolution, start, end)
  {
    var q := RangeQuery(t.timeseries, region, metric, resolution, start, end);
    var r := Timeseries(t, region, metric, resolution, start, end);
    assert r == SamplesOf(q);
    assert p in q;
    var i :| 0 <= i < |q| && q[i] == p;
    assert r[i] == Sample(p.ts, p.value);
  }

  /** `SELECT MIN(ts), MAX(ts) FROM weather_hourly`: null on an empty table. */
  function WeatherBounds(ws: seq<WeatherPoint>): (b: Option<(Timestamp, Timestamp)>)
    ensures b.None? <==> |ws| == 0
    ensures b.Some? ==> forall i :: 0 <= i < |ws| ==> b.value.0 <= ws[i].ts <= b.value.1
    ensures b.Some? ==> (exists i :: 0 <= i < |ws| && ws[i].ts == b.value.0)
                        && (exists j :: 0 <= j < |ws| && ws[j].ts == b.value.1)
  {
    if |ws| == 0 then None
    else
      var stamps := KeysOf(ws, StoredWeatherTs);
      Some((MinOf(stamps), MaxOf(stamps)))
  }

  predicate InWindow(w: WeatherPoint, lo: Timestamp, hi: Timestamp)
  {
    lo <= w.ts <= hi
  }

  function Within(lo: Timestamp, hi: Timestamp): WeatherPoint -> bool
  {
    w => InWindow(w, lo, hi)
  }

  /** The weather rows of the window, ascending. */
  function WeatherRange(ws: seq<WeatherPoint>, lo: Timestamp, hi: Timestamp): (r: seq<WeatherPoint>)
    ensures SortedBy(r, StoredWeatherTs)
    ensures multiset(r) == multiset(Filter(ws, Within(lo, hi)))
  {
    SortBy(Filter(ws, Within(lo, hi)), StoredWeatherTs)
  }

  /** The window is the table's own span, so the weather query returns
      every stored weather row. */
  lemma WeatherWindowIsWholeTable(ws: seq<WeatherPoint>)
    requires |ws| > 0
    ensures var b := WeatherBounds(ws).value;
            multiset(WeatherRange(ws, b.0, b.1)) == multiset(ws)
  {
    var b := WeatherBounds(ws).value;
    FilterKeepsAll(ws, Within(b.0, b.1));
  }

  // ---------------------------------------------------------------------------
  // merge_asof(direction="nearest", tolerance=2h)
  // ---------------------------------------------------------------------------

  function Distance(a: int, b: int): nat
  {
    if a <= b then b - a else a - b
  }

  /** The backward candidate: the last weather row at or before `t`. */
  function LastAtOrBefore(ws: seq<WeatherPoint>, t: Timestamp): (r: Option<nat>)
    ensures r.None? ==> forall j :: 0 <= j < |ws| ==> ws[j].ts > t
    ensures r.Some? ==> r.value < |ws| && ws[r.value].ts <= t
    ensures r.Some? ==> forall j :: r.value < j < |ws| ==> ws[j].ts > t
  {
    if |ws| == 0 then None
    else if ws[|ws| - 1].ts <= t then Some(|ws| - 1)
    else LastAtOrBefore(ws[..|ws| - 1], t)
  }

  /** The forward candidate: the first weather row at or after `t`. */
  function FirstAtOrAfter(ws: seq<WeatherPoint>, t: Timestamp): (r: Option<nat>)
    ensures r.None? ==> forall j :: 0 <= j < |ws| ==> ws[j].ts < t
    ensures r.Some? ==> r.value < |ws| && ws[r.value].ts >= t
    ensures r.Some? ==> forall j :: 0 <= j < r.value ==> ws[j].ts < t
  {
    if |ws| == 0 then None
    else if ws[0].ts >= t then Some(0)
    else
      match FirstAtOrAfter(ws[1..], t)
      case None => None
      case Some(k) => Some(k + 1)
  }

  /** The row `merge_asof` pairs with instant `t`: each candidate counts only
      within the tolerance; when both do, the backward one wins unless the
      forward one is strictly closer. */
  function NearestIndex(ws: seq<WeatherPoint>, t: Timestamp, tolerance: nat): (r: Option<nat>)
    ensures r.Some? ==> r.value < |ws|
  {
    var b := LastAtOrBefore(ws, t);
    var f := FirstAtOrAfter(ws, t);
    var backOk := b.Some? && t - ws[b.value].ts <= tolerance;
    var foreOk := f.Some? && ws[f.value].ts - t <= tolerance;
    if backOk && foreOk then
      (if t - ws[b.value].ts <= ws[f.value].ts - t then b else f)
    else if backOk then b
    else if foreOk then f
    else None
  }

  /** On weather sorted by instant, the backward candidate is the latest
      row at or before `t` and the forward one the earliest at or after. */
  lemma CandidatesBracket(ws: seq<WeatherPoint>, t: Timestamp)
    requires SortedBy(ws, StoredWeatherTs)
    ensures forall j :: 0 <= j < |ws| && ws[j].ts <= t ==>
              LastAtOrBefore(ws, t).Some? && ws[j].ts <= ws[LastAtOrBefore(ws, t).value].ts
    ensures forall j :: 0 <= j < |ws| && ws[j].ts >= t ==>
              FirstAtOrAfter(ws, t).Some? && ws[FirstAtOrAfter(ws, t).value].ts <= ws[j].ts
  {
    var b := LastAtOrBefore(ws, t);
    var f := FirstAtOrAfter(ws, t);
    if b.Some? {
      forall j | 0 <= j < b.value ensures ws[j].ts <= ws[b.value].ts {
        assert StoredWeatherTs(ws[j]) <= StoredWeatherTs(ws[b.value]);
      }
    }
    if f.Some? {
      forall j | f.value < j < |ws| ensures ws[f.value].ts <= ws[j].ts {
        assert StoredWeatherTs(ws[f.value]) <= StoredWeatherTs(ws[j]);
      }
    }
  }

  /** On weather sorted by instant, the pairing is the nearest row, found
      exactly when some row lies within the tolerance; on equal distance the
      earlier row wins. */
  lemma NearestIsClosest(ws: seq<WeatherPoint>, t: Timestamp, tolerance: nat)
    requires SortedBy(ws, StoredWeatherTs)
    ensures NearestIndex(ws, t, tolerance).None? <==>
              forall j :: 0 <= j < |ws| ==> Distance(ws[j].ts, t) > tolerance
    ensures NearestIndex(ws, t, tolerance).Some? ==>
              var m := NearestIndex(ws, t, tolerance).value;
              && Distance(ws[m].ts, t) <= tolerance
              && forall j :: 0 <= j < |ws| ==> Distance(ws[m].ts, t) <= Distance(ws[j].ts, t)
    ensures NearestIndex(ws, t, tolerance).Some? ==>
              var m := NearestIndex(ws, t, tolerance).value;
              ws[m].ts > t ==>
                forall j :: 0 <= j < |ws| && ws[j].ts <= t ==> Distance(ws[j].ts, t) > Distance(ws[m].ts, t)
  {
    CandidatesBracket(ws, t);
  }

  /** Widening the tolerance never changes a pairing that already exists:
      the row paired within the smaller tolerance is still the one paired
      within the larger, so a larger tolerance never loses a matched row. */
  lemma NearestStable(ws: seq<WeatherPoint>, t: Timestamp, tol1: nat, tol2: nat)
    requires tol1 <= tol2
    ensures NearestIndex(ws, t, tol1).Some? ==> NearestIndex(ws, t, tol2) == NearestIndex(ws, t, tol1)
  {
  }

  /** All three weather readings present on the paired row. */
  predicate ReadingsComplete(w: WeatherPoint)
  {
    w.temperature2m.Some? && w.windspeed10m.Some? && w.precipitation.Some?
  }

  /** The joined row for one load row, or nothing: no weather row within
      the tolerance, or the paired row has a null reading (`dropna`). */
  function JoinOne(p: TimeSeriesPoint, ws: seq<WeatherPoint>): (r: seq<JoinedRow>)
    ensures |r| <= 1
    ensures |r| == 1 <==> NearestIndex(ws, p.ts, Tolerance).Some?
                          && ReadingsComplete(ws[NearestIndex(ws, p.ts, Tolerance).value])
    ensures |r| == 1 ==> r[0].ts == p.ts && r[0].value == p.value
    ensures |r| == 1 ==>
              var w := ws[NearestIndex(ws, p.ts, Tolerance).value];
              r[0].weather == Covariates(w.temperature2m.value, w.windspeed10m.value, w.precipitation.value)
  {
    match NearestIndex(ws, p.ts, Tolerance)
    case None => []
    case Some(m) =>
      var w := ws[m];
      if ReadingsComplete(w) then
        [JoinedRow(p.ts, p.value, Covariates(w.temperature2m.value, w.windspeed10m.value, w.precipitation.value))]
      else []
  }

  /** The handler's join: `merge_asof(load, weather, nearest, 2h)` followed
      by dropping rows with a null reading. */
  function MergeAsofNearest(load: seq<TimeSeriesPoint>, ws: seq<WeatherPoint>): (r: seq<JoinedRow>)
    ensures |r| <= |load|
  {
    if |load| == 0 then []
    else JoinOne(load[0], ws) + MergeAsofNearest(load[1..], ws)
  }

  /** The join works row by row: joining two runs of load rows is joining
      each and concatenating, so the output keeps the load order and has at
      most one row per load row. */
  lemma {:induction false} MergeAsofConcat(a: seq<TimeSeriesPoint>, b: seq<TimeSeriesPoint>, ws: seq<WeatherPoint>)
    ensures MergeAsofNearest(a + b, ws) == MergeAsofNearest(a, ws) + MergeAsofNearest(b, ws)
  {
    if |a| == 0 {
      assert a + b == b;
    } else {
      assert (a + b)[1..] == a[1..] + b;
      MergeAsofConcat(a[1..], b, ws);
    }
  }

  /** `x` has the instant and value of some load row. */
  ghost predicate FromLoadRow(x: JoinedRow, load: seq<TimeSeriesPoint>)
  {
    exists k :: 0 <= k < |load| && x.ts == load[k].ts && x.value == load[k].value
  }

  /** Every joined row is a load row with its own instant and value. */
  lemma {:induction false} MergeAsofFromLoad(load: seq<TimeSeriesPoint>, ws: seq<WeatherPoint>)
    ensures forall i :: 0 <= i < |MergeAsofNearest(load, ws)| ==> FromLoadRow(MergeAsofNearest(load, ws)[i], load)
  {
    if |load| > 0 {
      MergeAsofFromLoad(load[1..], ws);
      var head := JoinOne(load[0], ws);
      var tail := MergeAsofNearest(load[1..], ws);
      var r := MergeAsofNearest(load, ws);
      assert r == head + tail;
      forall i | 0 <= i < |r| ensures FromLoadRow(r[i], load) {
        if i < |head| {
          assert r[i] == head[0];
          assert r[i].ts == load[0].ts && r[i].value == load[0].value;
        } else {
          assert r[i] == tail[i - |head|];
          assert FromLoadRow(tail[i - |head|], load[1..]);
          var k :| 0 <= k < |load[1..]| && tail[i - |head|].ts == load[1..][k].ts
                   && tail[i - |head|].value == load[1..][k].value;
          assert load[1..][k] == load[k + 1];
          assert r[i].ts == load[k + 1].ts && r[i].value == load[k + 1].value;
        }
      }
    }
  }

  /** The joined instants keep the order of the (sorted) load rows. */
  lemma {:induction false} MergeAsofKeepsLoadOrder(load: seq<TimeSeriesPoint>, ws: seq<WeatherPoint>)
    requires SortedBy(load, PointTs)
    ensures forall i, j :: 0 <= i < j < |MergeAsofNearest(load, ws)| ==>
              MergeAsofNearest(load, ws)[i].ts <= MergeAsofNearest(load, ws)[j].ts
  {
    if |load| > 0 {
      MergeAsofKeepsLoadOrder(load[1..], ws);
      MergeAsofFromLoad(load[1..], ws);
      var head := JoinOne(load[0], ws);
      var tail := MergeAsofNearest(load[1..], ws);
      var r := MergeAsofNearest(load, ws);
      assert r == head + tail;
      forall i | 0 <= i < |tail| ensures tail[i].ts >= load[0].ts {
        assert FromLoadRow(tail[i], load[1..]);
        var k :| 0 <= k < |load[1..]| && tail[i].ts == load[1..][k].ts;
        assert load[1..][k] == load[k + 1];
        assert PointTs(load[0]) <= PointTs(load[k + 1]);
      }
      forall i, j | 0 <= i < j < |r| ensures r[i].ts <= r[j].ts {
        if i >= |head| {
          assert r[i] == tail[i - |head|] && r[j] == tail[j - |head|];
        } else {
          assert r[i] == head[0] && r[j] == tail[j - |head|];
        }
      }
    }
  }

  /** Load rows of the region, metric `load`, resolution `hour`, inside the
      weather window, ascending. */
  function LoadWindow(t: Tables, region: string, lo: Timestamp, hi: Timestamp): seq<TimeSeriesPoint>
  {
    RangeQuery(t.timeseries, region, "load", "hour", lo, hi)
  }

  function JoinedRows(load: seq<TimeSeriesPoint>, ws: seq<WeatherPoint>): seq<JoinedRow>
  {
    MergeAsofNearest(load, ws)
  }

  /** `train_and_forecast` followed by the empty-output check. */
  function ForecastFrom(joined: seq<JoinedRow>, horizon: int, fit: seq<Example> -> Predictor): Result<seq<ForecastPoint>, ForecastError>
  {
    var training := TrainingSet(joined);
    if |training| == 0 then Err(ModelFailed)
    else
      var preds := Rollout(SortByTs(joined), horizon, fit(training));
      if |preds| == 0 then Err(EmptyForecast) else Ok(preds)
  }

  /** Everything before the model: the weather window, the two reads, the
      three count gates and the join. */
  function GatedRows(t: Tables, region: string): Result<seq<JoinedRow>, ForecastError>
  {
    match WeatherBounds(t.weatherHourly)
    case None => Err(NoWeather)
    case Some((lo, hi)) =>
      var load := LoadWindow(t, region, lo, hi);
      var ws := WeatherRange(t.weatherHourly, lo, hi);
      if |load| < MinRows then Err(NotEnoughLoad(|load|))
      else if |ws| < MinRows then Err(NotEnoughWeather(|ws|))
      else
        var joined := JoinedRows(load, ws);
        if |joined| < MinRows then Err(NotEnoughJoined(|joined|, StatedJoinedNeed))
        else Ok(joined)
  }

  /** The `/forecast` answer on a database snapshot. */
  function ForecastResponse(t: Tables, region: string, horizon: int, fit: seq<Example> -> Predictor): Result<seq<ForecastPoint>, ForecastError>
  {
    match GatedRows(t, region)
    case Err(e) => Err(e)
    case Ok(joined) => ForecastFrom(joined, horizon, fit)
  }

  /** The gates fire in order: no weather, then too little load, then too
      little weather (the whole weather table, since the window is its own
      span), then too few joined rows, whose error states a need of 48
      while the gate admits 24. Rows that pass number at least 24. */
  lemma {:induction false} GatesInOrder(t: Tables, region: string)
    ensures |t.weatherHourly| == 0 ==> GatedRows(t, region) == Err(NoWeather)
    ensures |t.weatherHourly| > 0 ==>
              var b := WeatherBounds(t.weatherHourly).value;
              var load := LoadWindow(t, region, b.0, b.1);
              var r := GatedRows(t, region);
              && (|load| < MinRows ==> r == Err(NotEnoughLoad(|load|)))
              && (|load| >= MinRows && |t.weatherHourly| < MinRows ==> r == Err(NotEnoughWeather(|t.weatherHourly|)))
              && (|load| >= MinRows && |t.weatherHourly| >= MinRows ==>
                    var joined := JoinedRows(load, WeatherRange(t.weatherHourly, b.0, b.1));
                    && (|joined| < MinRows ==> r == Err(NotEnoughJoined(|joined|, 48)))
                    && (|joined| >= MinRows ==> r == Ok(joined)))
    ensures GatedRows(t, region).Ok? ==> |GatedRows(t, region).value| >= MinRows
    ensures GatedRows(t, region).Err? ==> GatedRows(t, region).error != ModelFailed
                                          && GatedRows(t, region).error != EmptyForecast
  {
    if |t.weatherHourly| > 0 {
      WeatherWindowIsWholeTable(t.weatherHourly);
      var b := WeatherBounds(t.weatherHourly).value;
      assert |WeatherRange(t.weatherHourly, b.0, b.1)| == |multiset(t.weatherHourly)|;
    }
  }

  /** With at least 24 joined rows the model always trains (on at least 19
      complete feature rows), and the answer is exactly the rollout: one
      point per requested hour, point k being k + 1 hours after the latest
      joined instant. A horizon below one would be
      the empty-output error. */
  lemma ForecastFromShape(joined: seq<JoinedRow>, horizon: int, fit: seq<Example> -> Predictor)
    requires |joined| >= MinRows
    ensures |TrainingSet(joined)| >= MinRows - 5
    ensures horizon < 1 ==> ForecastFrom(joined, horizon, fit) == Err(EmptyForecast)
    ensures horizon >= 1 ==>
              var preds := Rollout(SortByTs(joined), horizon, fit(TrainingSet(joined)));
              && ForecastFrom(joined, horizon, fit) == Ok(preds)
              && |preds| == horizon
              && forall k :: 0 <= k < horizon ==>
                   preds[k].ts == SortByTs(joined)[|joined| - 1].ts + HourSeconds * (k + 1)
  {
    assert |TrainingSet(joined)| >= MinRows - 5 by {
      TrainingSetIsSuffix(joined);
    }
    var history := SortByTs(joined);
    var model := fit(TrainingSet(joined));
    var preds := Rollout(history, horizon, model);
    RolloutClock(history, horizon, model);
  }

  /** The handler's last two error paths cannot fire for a valid horizon:
      past the gates it always answers with a forecast. */
  lemma PastGatesAlwaysForecasts(t: Tables, region: string, horizon: int, fit: seq<Example> -> Predictor)
    requires 1 <= horizon
    ensures ForecastResponse(t, region, horizon, fit) != Err(ModelFailed)
    ensures ForecastResponse(t, region, horizon, fit) != Err(EmptyForecast)
    ensures GatedRows(t, region).Ok? ==> ForecastResponse(t, region, horizon, fit).Ok?
  {
    GatesInOrder(t, region);
    if GatedRows(t, region).Ok? {
      ForecastFromShape(GatedRows(t, region).value, horizon, fit);
    }
  }

  /** The `/forecast` handler: the reads, the gates, the join and the model
      run, answering exactly as `ForecastResponse` on the current state.
      `horizon` is validated to 1..72 before the handler runs. */
  method HandleForecast(db: Database, region: string, horizon: int, fit: seq<Example> -> Predictor)
    returns (r: Result<seq<ForecastPoint>, ForecastError>)
    requires 1 <= horizon <= 72
    ensures r == ForecastResponse(db.State(), region, horizon, fit)
  {
    var gated := GatedRows(db.State(), region);
    if gated.Err? {
      return Err(gated.error);
    }
    var joined := gated.value;
    var predicted := TrainAndForecast(joined, horizon, fit);
    if predicted.Err? {
      return Err(ModelFailed);
    }
    if |predicted.value| == 0 {
      return Err(EmptyForecast);
    }
    return Ok(predicted.value);
  }

  // ---------------------------------------------------------------------------
  // Ingestion trigger
  // ---------------------------------------------------------------------------

  /** `_scheduled_ingest`: one ingestion run whose failure is logged and
      swallowed; whatever was committed before the failure stays. */
  method ScheduledIngest(db: Database, cfg: Config, up: Upstream)
    modifies db
    ensures db.State() == RunIngestion(old(db.State()), cfg, up).tables
  {
    var outcome := RunIngestionPass(db, cfg, up);
  }

  /** `POST /ingest-now`: runs the ingestion in the request and always
      reports that it was triggered, whether or not the run raised. */
  method IngestNow(db: Database, cfg: Config, up: Upstream) returns (status: string)
    modifies db
    ensures status == "ingest triggered"
    ensures db.State() == RunIngestion(old(db.State()), cfg, up).tables
  {
    ScheduledIngest(db, cfg, up);
    status := "ingest triggered";
  }
}
