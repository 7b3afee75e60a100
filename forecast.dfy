/** Feature construction and the recursive rollout (`Backend/app/forecast.py`).

    The regression model is opaque: training is a function `fit` from the
    training examples to a predictor, and a predictor maps one feature vector
    to one value. Values are exact reals; an undefined feature (pandas NaN)
    is `None`. */
module Forecast {
  import opened Base
  import opened Models

  const HourSeconds: int := 3600
  const DaySeconds: int := 86400

  /** The window of `rolling(6)` and of `tail(6)`. */
  const RollWindow: nat := 6

  /** The three weather readings of a joined row (never null after the join). */
  datatype Covariates = Covariates(temperature2m: real, windspeed10m: real, precipitation: real)

  /** One row of the joined history: an hour of load with its weather. */
  datatype JoinedRow = JoinedRow(ts: Timestamp, value: real, weather: Covariates)

  /** One row of `make_features`: the input row plus its derived columns. */
  datatype FeatureRow = FeatureRow(
    row: JoinedRow,
    hour: int,
    dow: int,
    lag1: Option<real>,
    lag2: Option<real>,
    roll6: Option<real>)

  /** The eight model inputs, in `feature_cols` order. */
  datatype FeatureVector = FeatureVector(
    hour: int,
    dow: int,
    lag1: real,
    lag2: real,
    roll6: real,
    temperature2m: real,
    windspeed10m: real,
    precipitation: real)

  /** One training example: features and the load value to predict. */
  datatype Example = Example(x: FeatureVector, y: real)

  type Predictor = FeatureVector -> real

  /** One forecast hour. */
  datatype ForecastPoint = ForecastPoint(ts: Timestamp, yhat: real)

  /** Fitting on no rows raises inside the model library. */
  datatype TrainError = EmptyTrainingSet

  /** `ts.dt.hour` for a UTC instant. */
  function HourOf(t: Timestamp): int
  {
    (t / 3600) % 24
  }

  /** `ts.dt.dayofweek` for a UTC instant: Monday is 0, and 1970-01-01 was a Thursday. */
  function DayOfWeek(t: Timestamp): int
  {
    (t / 86400 + 3) % 7
  }

  /** An hour later the hour of day moves on by one, wrapping at midnight. */
  lemma HourAdvances(t: Timestamp)
    ensures HourOf(t + HourSeconds) == (HourOf(t) + 1) % 24
  {
    var q := t / 3600;
    assert (t + 3600) / 3600 == q + 1;
    var r := q % 24;
    assert q == 24 * (q / 24) + r;
    if r == 23 {
      assert q + 1 == 24 * (q / 24 + 1);
    } else {
      assert q + 1 == 24 * (q / 24) + (r + 1);
    }
  }

  /** A day later the weekday moves on by one, wrapping after Sunday. */
  lemma WeekdayAdvances(t: Timestamp)
    ensures DayOfWeek(t + DaySeconds) == (DayOfWeek(t) + 1) % 7
  {
    var q := t / 86400 + 3;
    assert (t + 86400) / 86400 + 3 == q + 1;
    var r := q % 7;
    assert q == 7 * (q / 7) + r;
    if r == 6 {
      assert q + 1 == 7 * (q / 7 + 1);
    } else {
      assert q + 1 == 7 * (q / 7) + (r + 1);
    }
  }

  /** The hour lies in [0, 24) and the weekday in [0, 7); an hour later the
      hour moves on by one and a day later the weekday does, each wrapping;
      the epoch fell on a Thursday. */
  lemma CalendarAdvances(t: Timestamp)
    ensures 0 <= HourOf(t) < 24 && 0 <= DayOfWeek(t) < 7
    ensures HourOf(t + HourSeconds) == (HourOf(t) + 1) % 24
    ensures DayOfWeek(t + DaySeconds) == (DayOfWeek(t) + 1) % 7
    ensures DayOfWeek(0) == 3
  {
    HourAdvances(t);
    WeekdayAdvances(t);
  }

  function Sum(s: seq<real>): real
  {
    if |s| == 0 then 0.0 else s[0] + Sum(s[1..])
  }

  /** The arithmetic mean of a non-empty window. */
  function Mean(s: seq<real>): real
    requires |s| > 0
  {
    Sum(s) / (|s| as real)
  }

  function Values(rows: seq<JoinedRow>): (v: seq<real>)
    ensures |v| == |rows|
    ensures forall i :: 0 <= i < |rows| ==> v[i] == rows[i].value
  {
    seq(|rows|, i requires 0 <= i < |rows| => rows[i].value)
  }

  function RowTs(r: JoinedRow): int
  {
    r.ts
  }

  function RowsOf(f: seq<FeatureRow>): (rows: seq<JoinedRow>)
    ensures |rows| == |f|
    ensures forall i {:trigger f[i]} :: 0 <= i < |f| ==> rows[i] == f[i].row
  {
    seq(|f|, i requires 0 <= i < |f| => f[i].row)
  }

  /** `df.sort_values("ts")`. */
  function SortByTs(rows: seq<JoinedRow>): (r: seq<JoinedRow>)
    ensures |r| == |rows|
    ensures SortedBy(r, RowTs)
    ensures multiset(r) == multiset(rows)
  {
    SortBy(rows, RowTs)
  }

  /** The derived columns at position `i` of time-ordered rows `s`. */
  function FeaturesAt(s: seq<JoinedRow>, i: nat): FeatureRow
    requires i < |s|
  {
    var v := Values(s);
    FeatureRow(
      s[i],
      HourOf(s[i].ts),
      DayOfWeek(s[i].ts),
      if i >= 1 then Some(v[i - 1]) else None,
      if i >= 2 then Some(v[i - 2]) else None,
      if i >= RollWindow - 1 then Some(Mean(v[i + 1 - RollWindow..i + 1])) else None)
  }

  /** `make_features`: sort by instant, then add hour, weekday, the two lags
      and the 6-row trailing mean. Every input row is kept, in ascending
      order of instant. */
  function MakeFeatures(rows: seq<JoinedRow>): (f: seq<FeatureRow>)
    ensures |f| == |rows|
    ensures forall i {:trigger f[i]} :: 0 <= i < |f| ==> f[i].row == SortByTs(rows)[i]
  {
    var s := SortByTs(rows);
    seq(|s|, i requires 0 <= i < |s| => FeaturesAt(s, i))
  }

  /** The derived columns: the rows are a permutation of the input in
      ascending order of instant; hour and weekday come from the row's own
      instant; `lag_1` and `lag_2` shift the value column by one and two rows;
      `roll_6` is the mean of the row and the five before it, undefined for
      the first five. */
  lemma MakeFeaturesColumns(rows: seq<JoinedRow>, f: seq<FeatureRow>)
    requires f == MakeFeatures(rows)
    ensures multiset(RowsOf(f)) == multiset(rows)
    ensures SortedBy(RowsOf(f), RowTs)
    ensures forall i :: 0 <= i < |f| ==>
              && f[i].hour == HourOf(f[i].row.ts) && 0 <= f[i].hour < 24
              && f[i].dow == DayOfWeek(f[i].row.ts) && 0 <= f[i].dow < 7
              && f[i].lag1 == (if i >= 1 then Some(f[i - 1].row.value) else None)
              && f[i].lag2 == (if i >= 2 then Some(f[i - 2].row.value) else None)
              && f[i].roll6 == (if i >= 5 then Some(Mean(Values(RowsOf(f))[i - 5..i + 1])) else None)
  {
    var s := SortByTs(rows);
    assert RowsOf(f) == s;
    forall i | 0 <= i < |f|
      ensures f[i].hour == HourOf(f[i].row.ts) && 0 <= f[i].hour < 24
      ensures f[i].dow == DayOfWeek(f[i].row.ts) && 0 <= f[i].dow < 7
      ensures f[i].lag1 == (if i >= 1 then Some(f[i - 1].row.value) else None)
      ensures f[i].lag2 == (if i >= 2 then Some(f[i - 2].row.value) else None)
      ensures f[i].roll6 == (if i >= 5 then Some(Mean(Values(RowsOf(f))[i - 5..i + 1])) else None)
    {
      var v := Values(s);
      assert f[i] == FeaturesAt(s, i);
      if i >= 1 {
        assert f[i - 1].row == s[i - 1];
      }
      if i >= 2 {
        assert f[i - 2].row == s[i - 2];
      }
    }
  }

  /** A row survives `dropna()` when none of its features is undefined. */
  predicate Complete(f: FeatureRow)
  {
    f.lag1.Some? && f.lag2.Some? && f.roll6.Some?
  }

  function ToExample(f: FeatureRow): Example
    requires Complete(f)
  {
    Example(
      FeatureVector(f.hour, f.dow, f.lag1.value, f.lag2.value, f.roll6.value,
                    f.row.weather.temperature2m, f.row.weather.windspeed10m, f.row.weather.precipitation),
      f.row.value)
  }

  /** `make_features(df_joined).dropna()` as (X, y) pairs. */
  function TrainingSet(rows: seq<JoinedRow>): (r: seq<Example>)
    ensures |r| <= |rows|
  {
    var kept := Filter(MakeFeatures(rows), Complete);
    seq(|kept|, i requires 0 <= i < |kept| => ToExample(kept[i]))
  }

  /** Example `e` is the one built from row `i` of the time-ordered history
      `s`: labelled with that row's value, with that row's hour, weekday and
      weather readings, lagging rows i - 1 and i - 2, and averaging the six
      rows ending at `i`. */
  predicate ExampleOfRow(e: Example, s: seq<JoinedRow>, i: nat)
    requires RollWindow - 1 <= i < |s|
  {
    && e.y == s[i].value
    && e.x.hour == HourOf(s[i].ts)
    && e.x.dow == DayOfWeek(s[i].ts)
    && e.x.lag1 == s[i - 1].value
    && e.x.lag2 == s[i - 2].value
    && e.x.roll6 == Mean(Values(s[i + 1 - RollWindow..i + 1]))
    && e.x.temperature2m == s[i].weather.temperature2m
    && e.x.windspeed10m == s[i].weather.windspeed10m
    && e.x.precipitation == s[i].weather.precipitation
  }

  /** From the sixth row on every feature is defined, and the example built
      there reads its columns off the history as `ExampleOfRow` says. */
  lemma ExampleAt(s: seq<JoinedRow>, i: nat)
    requires RollWindow - 1 <= i < |s|
    ensures Complete(FeaturesAt(s, i))
    ensures ExampleOfRow(ToExample(FeaturesAt(s, i)), s, i)
  {
    assert Values(s)[i + 1 - RollWindow..i + 1] == Values(s[i + 1 - RollWindow..i + 1]);
  }

  /** Only the first five rows lack a feature, so training sees the rows of
      the time-ordered history from the sixth on: max(L - 5, 0) examples, the
      k-th built from row k + 5 (its label, calendar and weather), lagging
      rows k + 4 and k + 3 and averaging rows k through k + 5. */
  lemma {:induction false} TrainingSetIsSuffix(rows: seq<JoinedRow>)
    ensures |TrainingSet(rows)| == Max(|rows| - 5, 0)
    ensures var s := SortByTs(rows);
            forall k :: 0 <= k < |TrainingSet(rows)| ==> ExampleOfRow(TrainingSet(rows)[k], s, k + 5)
  {
    var f := MakeFeatures(rows);
    var s := SortByTs(rows);
    var k0 := Min(5, |f|);
    forall i | 0 <= i < |f| ensures f[i] == FeaturesAt(s, i) {
      assert RowsOf(f)[i] == s[i];
    }
    forall i | 0 <= i < |f| ensures Complete(f[i]) <==> i >= k0 {
      assert f[i] == FeaturesAt(s, i);
    }
    FilterSuffix(f, Complete, k0);
    var training := TrainingSet(rows);
    forall k | 0 <= k < |training|
      ensures ExampleOfRow(training[k], s, k + 5)
    {
      assert training[k] == ToExample(f[k + 5]);
      ExampleAt(s, k + 5);
    }
  }

  // ---------------------------------------------------------------------------
  // The recursive rollout
  // ---------------------------------------------------------------------------

  /** The feature row built from the working history for the next hour: the
      calendar of the next instant, the last value, the one before it (or the
      last again when there is only one), the mean of the last min(6, n)
      values, and the weather of the last row. */
  function NextFeatures(work: seq<JoinedRow>): FeatureVector
    requires |work| > 0
  {
    var last := work[|work| - 1];
    var next := last.ts + HourSeconds;
    var v := Values(work);
    var n := |v|;
    FeatureVector(
      HourOf(next),
      DayOfWeek(next),
      v[n - 1],
      if n > 1 then v[n - 2] else v[n - 1],
      Mean(v[n - Min(RollWindow, n)..]),
      last.weather.temperature2m,
      last.weather.windspeed10m,
      last.weather.precipitation)
  }

  /** The row appended to the working history after one prediction. */
  function NextRow(work: seq<JoinedRow>, predict: Predictor): JoinedRow
    requires |work| > 0
  {
    var last := work[|work| - 1];
    JoinedRow(last.ts + HourSeconds, predict(NextFeatures(work)), last.weather)
  }

  /** The working history after `steps` predictions. */
  function Extend(work: seq<JoinedRow>, steps: nat, predict: Predictor): (w: seq<JoinedRow>)
    requires |work| > 0
    ensures |w| == |work| + steps
    decreases steps
  {
    if steps == 0 then work
    else
      var before := Extend(work, steps - 1, predict);
      before + [NextRow(before, predict)]
  }

  /** The predicted values of forecast points, in order. */
  function Yhats(points: seq<ForecastPoint>): (v: seq<real>)
    ensures |v| == |points|
    ensures forall i :: 0 <= i < |points| ==> v[i] == points[i].yhat
  {
    seq(|points|, i requires 0 <= i < |points| => points[i].yhat)
  }

  /** The forecast points reported for the rows of `rows` from index
      `from` on: each row's instant and value. */
  function Points(rows: seq<JoinedRow>, from: nat): (p: seq<ForecastPoint>)
    requires from <= |rows|
    ensures |p| == |rows| - from
    ensures forall k :: 0 <= k < |p| ==> p[k].ts == rows[from + k].ts && p[k].yhat == rows[from + k].value
  {
    seq(|rows| - from, k requires 0 <= k < |rows| - from => ForecastPoint(rows[from + k].ts, rows[from + k].value))
  }

  /** Appending a row reports one more point, for that row. */
  lemma PointsSnoc(rows: seq<JoinedRow>, from: nat, row: JoinedRow)
    requires from <= |rows|
    ensures Points(rows + [row], from) == Points(rows, from) + [ForecastPoint(row.ts, row.value)]
  {
    var longer := Points(rows + [row], from);
    forall k | 0 <= k < |longer| - 1 ensures longer[k] == Points(rows, from)[k] {
      assert (rows + [row])[from + k] == rows[from + k];
    }
  }

  /** The forecast: `range(horizon)` steps (none for a horizon <= 0), each
      reporting the row it appended. */
  function Rollout(history: seq<JoinedRow>, horizon: int, predict: Predictor): (r: seq<ForecastPoint>)
    requires |history| > 0
  {
    Points(Extend(history, Max(horizon, 0), predict), |history|)
  }

  /** The working history after `m` steps is a prefix of the one after
      any later step: a later prediction never rewrites an earlier row. */
  lemma {:induction false} ExtendPrefix(work: seq<JoinedRow>, steps: nat, m: nat, predict: Predictor)
    requires |work| > 0
    requires m <= steps
    ensures Extend(work, steps, predict)[..|work| + m] == Extend(work, m, predict)
    decreases steps
  {
    if m < steps {
      ExtendPrefix(work, steps - 1, m, predict);
      var before := Extend(work, steps - 1, predict);
      assert Extend(work, steps, predict)[..|work| + m] == before[..|work| + m];
    }
  }

  /** After `m` steps the last row is `m` hours after the last history row
      and carries its weather. */
  lemma {:induction false} ExtendLastRow(work: seq<JoinedRow>, m: nat, predict: Predictor)
    requires |work| > 0
    ensures var w := Extend(work, m, predict);
            && w[|w| - 1].ts == work[|work| - 1].ts + HourSeconds * m
            && w[|w| - 1].weather == work[|work| - 1].weather
    decreases m
  {
    if m > 0 {
      ExtendLastRow(work, m - 1, predict);
    }
  }

  /** Step `k` of the rollout reports the row predicted from the working
      history after `k` steps. */
  lemma RolloutStep(history: seq<JoinedRow>, horizon: int, predict: Predictor, k: nat)
    requires |history| > 0
    requires k < Max(horizon, 0)
    ensures var work := Extend(history, k, predict);
            && Rollout(history, horizon, predict)[k].ts == NextRow(work, predict).ts
            && Rollout(history, horizon, predict)[k].yhat == NextRow(work, predict).value
  {
    var steps := Max(horizon, 0);
    var w := Extend(history, steps, predict);
    var before := Extend(history, k, predict);
    assert w[..|history| + k + 1] == before + [NextRow(before, predict)] by {
      ExtendPrefix(history, steps, k + 1, predict);
    }
    assert w[|history| + k] == NextRow(before, predict) by {
      assert w[|history| + k] == w[..|history| + k + 1][|history| + k];
    }
  }

  /** The forecast has max(horizon, 0) hours: point k is k + 1 hours after
      the last history instant, so the points are consecutive hours. */
  lemma RolloutClock(history: seq<JoinedRow>, horizon: int, predict: Predictor)
    requires |history| > 0
    ensures |Rollout(history, horizon, predict)| == Max(horizon, 0)
    ensures forall k :: 0 <= k < |Rollout(history, horizon, predict)| ==>
              Rollout(history, horizon, predict)[k].ts == history[|history| - 1].ts + HourSeconds * (k + 1)
  {
    var r := Rollout(history, horizon, predict);
    forall k | 0 <= k < |r| ensures r[k].ts == history[|history| - 1].ts + HourSeconds * (k + 1) {
      RolloutStep(history, horizon, predict, k);
      ExtendLastRow(history, k, predict);
    }
  }

  /** Row `|history| + j` of the working history after k steps carries
      prediction j. */
  lemma RolloutRowsArePredictions(history: seq<JoinedRow>, horizon: int, predict: Predictor, k: nat, j: nat)
    requires |history| > 0
    requires j < k <= Max(horizon, 0)
    ensures Extend(history, k, predict)[|history| + j].value == Rollout(history, horizon, predict)[j].yhat
  {
    var work := Extend(history, k, predict);
    RolloutStep(history, horizon, predict, j);
    ExtendPrefix(history, k, j + 1, predict);
    assert work[|history| + j] == work[..|history| + j + 1][|history| + j];
  }

  /** After k steps the working history is the history followed by the
      first k predicted values. */
  lemma RolloutWorkingHistory(history: seq<JoinedRow>, horizon: int, predict: Predictor, k: nat)
    requires |history| > 0
    requires k <= Max(horizon, 0)
    ensures var work := Extend(history, k, predict);
            && work[..|history|] == history
            && Values(work) == Values(history) + Yhats(Rollout(history, horizon, predict)[..k])
  {
    var r := Rollout(history, horizon, predict);
    var n := |history|;
    var work := Extend(history, k, predict);
    var values := Values(history) + Yhats(r[..k]);
    ExtendPrefix(history, k, 0, predict);
    forall i | 0 <= i < |work| ensures Values(work)[i] == values[i] {
      if i < n {
        assert work[i] == work[..n][i];
      } else {
        RolloutRowsArePredictions(history, horizon, predict, k, i - n);
      }
    }
  }

  /** Recursive consistency: step k predicts from the history followed by
      the first k predictions. Its `lag_1` is prediction k - 1 (the last
      history value at step 0), its `lag_2` is prediction k - 2 (at step 1
      the last history value; at step 0 the one before it, or the last again
      for a one-row history), its `roll_6` is the mean of the last
      min(6, n) of those values, and its weather is the last history row's,
      carried forward unchanged; its calendar is that of the forecast
      instant. */
  lemma {:induction false} RolloutFeedsBack(history: seq<JoinedRow>, horizon: int, predict: Predictor, k: nat)
    requires |history| > 0
    requires k < Max(horizon, 0)
    ensures var r := Rollout(history, horizon, predict);
            var values := Values(history) + Yhats(r[..k]);
            var x := NextFeatures(Extend(history, k, predict));
            var h := history[|history| - 1];
            && r[k].yhat == predict(x)
            && x.lag1 == (if k >= 1 then r[k - 1].yhat else h.value)
            && x.lag2 == (if k >= 2 then r[k - 2].yhat
                          else if k == 1 then h.value
                          else if |history| > 1 then history[|history| - 2].value
                          else h.value)
            && x.roll6 == Mean(values[|values| - Min(RollWindow, |values|)..])
            && x.temperature2m == h.weather.temperature2m
            && x.windspeed10m == h.weather.windspeed10m
            && x.precipitation == h.weather.precipitation
            && x.hour == HourOf(r[k].ts)
            && x.dow == DayOfWeek(r[k].ts)
  {
    var r := Rollout(history, horizon, predict);
    var n := |history|;
    var work := Extend(history, k, predict);
    var values := Values(history) + Yhats(r[..k]);
    assert Values(work) == values by {
      RolloutWorkingHistory(history, horizon, predict, k);
    }
    assert r[k].ts == work[|work| - 1].ts + HourSeconds && r[k].yhat == predict(NextFeatures(work)) by {
      RolloutStep(history, horizon, predict, k);
    }
    assert work[|work| - 1].weather == history[n - 1].weather by {
      ExtendLastRow(history, k, predict);
    }
    assert values[|values| - 1] == (if k >= 1 then r[k - 1].yhat else history[n - 1].value);
    if k >= 2 {
      assert values[|values| - 2] == r[k - 2].yhat;
    } else if k == 1 {
      assert values[|values| - 2] == history[n - 1].value;
    }
  }

  /** One turn of the rollout loop of `train_and_forecast`: build the next
      feature row from the working history, predict, report the point, and
      append the predicted row with the last weather carried forward. */
  method RollForwardStep(history: seq<JoinedRow>, i: nat, model: Predictor, last: seq<JoinedRow>, preds: seq<ForecastPoint>)
    returns (last': seq<JoinedRow>, preds': seq<ForecastPoint>)
    requires |history| > 0
    requires last == Extend(history, i, model)
    requires preds == Points(last, |history|)
    ensures last' == Extend(history, i + 1, model)
    ensures preds' == Points(last', |history|)
  {
    var prev := last[|last| - 1];
    var nextTs := prev.ts + HourSeconds;
    var yhat := model(NextFeatures(last));
    var row := JoinedRow(nextTs, yhat, prev.weather);
    PointsSnoc(last, |history|, row);
    preds' := preds + [ForecastPoint(nextTs, yhat)];
    last' := last + [row];
  }

  /** The rollout loop of `train_and_forecast`, `horizon` times. */
  method RollForward(history: seq<JoinedRow>, horizon: int, model: Predictor)
    returns (preds: seq<ForecastPoint>)
    requires |history| > 0
    ensures preds == Rollout(history, horizon, model)
  {
    var last := history;
    preds := [];
    var i := 0;
    while i < horizon
      invariant 0 <= i <= Max(horizon, 0)
      invariant last == Extend(history, i, model)
      invariant preds == Points(last, |history|)
    {
      last, preds := RollForwardStep(history, i, model, last, preds);
      i := i + 1;
    }
  }

  /** `train_and_forecast`: fit on the complete feature rows (raising when
      there are none), then roll forward `horizon` times from the
      time-ordered history. */
  method TrainAndForecast(joined: seq<JoinedRow>, horizon: int, fit: seq<Example> -> Predictor)
    returns (r: Result<seq<ForecastPoint>, TrainError>)
    ensures |TrainingSet(joined)| == 0 ==> r == Err(EmptyTrainingSet)
    ensures |TrainingSet(joined)| > 0 ==>
              |joined| > 5 && r == Ok(Rollout(SortByTs(joined), horizon, fit(TrainingSet(joined))))
  {
    var training := TrainingSet(joined);
    if |training| == 0 {
      return Err(EmptyTrainingSet);
    }
    assert |joined| > 5 by {
      TrainingSetIsSuffix(joined);
    }
    var model := fit(training);
    var preds := RollForward(SortByTs(joined), horizon, model);
    return Ok(preds);
  }
}
