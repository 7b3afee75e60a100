/** Window-replace ingestion (`Backend/app/ingest.py`).

    Every write is a "replace window": delete the stored rows of the same key
    whose instant lies in the batch's inclusive [min, max] span, then insert
    every batch row with a new primary key. The functions below state each
    operation on a `Tables` snapshot; the methods at the end perform the same
    operations step by step on a `Database` and are proved to agree with them. */
module Ingest {
  import opened Base
  import opened Models
  import opened Clients

  /** One cleaned (ts, value) row of a SMARD batch. */
  datatype Sample = Sample(ts: Timestamp, value: real)

  /** One weather row before it receives a primary key. */
  datatype WeatherSample = WeatherSample(
    ts: Timestamp,
    temperature2m: Option<real>,
    windspeed10m: Option<real>,
    precipitation: Option<real>)

  /** How an ingestion step ends: it returns, or it raises. */
  datatype Outcome = Done | Raised(failure: Failure)

  /** The outcome of a step together with the database it leaves behind
      (writes committed before a raise stay). */
  datatype Progress = Progress(outcome: Outcome, tables: Tables)

  /** One market unit of the ingestion run. */
  datatype Unit = Unit(region: string, metric: string, filterId: string, resolution: string)

  /** The environment the run reads: the three SMARD filter ids (empty when
      unconfigured) and the weather site. */
  datatype Config = Config(loadFilter: string, windFilter: string, solarFilter: string, site: WeatherSite)

  // ---------------------------------------------------------------------------
  // _upsert_timeseries
  // ---------------------------------------------------------------------------

  function SampleTs(s: Sample): int { s.ts }


  /** The delete filter: same region, metric and resolution, `lo <= ts <= hi`. */
  predicate InSpan(p: TimeSeriesPoint, region: string, metric: string, resolution: string, lo: Timestamp, hi: Timestamp)
  {
    p.region == region && p.metric == metric && p.resolution == resolution && lo <= p.ts <= hi
  }

  function Hit(region: string, metric: string, resolution: string, lo: Timestamp, hi: Timestamp): TimeSeriesPoint -> bool
  {
    p => InSpan(p, region, metric, resolution, lo, hi)
  }

  function Miss(region: string, metric: string, resolution: string, lo: Timestamp, hi: Timestamp): TimeSeriesPoint -> bool
  {
    p => !InSpan(p, region, metric, resolution, lo, hi)
  }

  /** The rows the bulk insert adds, numbered from `firstId` in batch order. */
  function NewSeriesRows(region: string, metric: string, resolution: string, batch: seq<Sample>, firstId: nat): (r: seq<TimeSeriesPoint>)
    ensures |r| == |batch|
    ensures forall i :: 0 <= i < |r| ==> r[i].id == firstId + i
  {
    seq(|batch|, i requires 0 <= i < |batch| =>
      TimeSeriesPoint(firstId + i, region, metric, resolution, batch[i].ts, batch[i].value))
  }

  /** `_upsert_timeseries` on a snapshot: an empty batch returns at once;
      otherwise delete the span of the batch for the key, then insert. */
  function Upsert(t: Tables, region: string, metric: string, resolution: string, batch: seq<Sample>): Tables
  {
    if |batch| == 0 then t
    else
      var lo, hi := MinOf(KeysOf(batch, SampleTs)), MaxOf(KeysOf(batch, SampleTs));
      t.(timeseries := Filter(t.timeseries, Miss(region, metric, resolution, lo, hi))
                       + NewSeriesRows(region, metric, resolution, batch, t.nextSeriesId),
         nextSeriesId := t.nextSeriesId + |batch|)
  }

  /** The (ts, value) content of stored rows. */
  function SamplesOf(rows: seq<TimeSeriesPoint>): (r: seq<Sample>)
    ensures |r| == |rows|
    ensures forall i :: 0 <= i < |r| ==> r[i].ts == rows[i].ts && r[i].value == rows[i].value
  {
    seq(|rows|, i requires 0 <= i < |rows| => Sample(rows[i].ts, rows[i].value))
  }

  /** Stored rows with their primary keys blanked out. */
  function WithoutIds(rows: seq<TimeSeriesPoint>): (r: seq<TimeSeriesPoint>)
    ensures |r| == |rows|
  {
    seq(|rows|, i requires 0 <= i < |rows| => rows[i].(id := 0))
  }

  lemma UpsertEmptyIsNoop(t: Tables, region: string, metric: string, resolution: string)
    ensures Upsert(t, region, metric, resolution, []) == t
  {
  }

  lemma NewRowsInSpan(region: string, metric: string, resolution: string, batch: seq<Sample>, firstId: nat)
    requires |batch| > 0
    ensures var lo, hi := MinOf(KeysOf(batch, SampleTs)), MaxOf(KeysOf(batch, SampleTs));
            var rows := NewSeriesRows(region, metric, resolution, batch, firstId);
            && Filter(rows, Hit(region, metric, resolution, lo, hi)) == rows
            && Filter(rows, Miss(region, metric, resolution, lo, hi)) == []
  {
    var lo, hi := MinOf(KeysOf(batch, SampleTs)), MaxOf(KeysOf(batch, SampleTs));
    var rows := NewSeriesRows(region, metric, resolution, batch, firstId);
    forall i | 0 <= i < |rows| ensures InSpan(rows[i], region, metric, resolution, lo, hi) {
      assert KeysOf(batch, SampleTs)[i] == rows[i].ts;
    }
    FilterKeepsAll(rows, Hit(region, metric, resolution, lo, hi));
    FilterDropsAll(rows, Miss(region, metric, resolution, lo, hi));
  }

  lemma KeptMisses(rows: seq<TimeSeriesPoint>, region: string, metric: string, resolution: string, lo: Timestamp, hi: Timestamp)
    ensures Filter(Filter(rows, Miss(region, metric, resolution, lo, hi)), Hit(region, metric, resolution, lo, hi)) == []
  {
    var kept := Filter(rows, Miss(region, metric, resolution, lo, hi));
    FilterDropsAll(kept, Hit(region, metric, resolution, lo, hi));
  }

  /** Rows of other keys, and rows of the same key outside the batch span,
      are untouched: same rows, same ids, same order. */
  lemma {:induction false} UpsertKeepsOutsideSpan(t: Tables, region: string, metric: string, resolution: string, batch: seq<Sample>)
    requires |batch| > 0
    ensures var lo, hi := MinOf(KeysOf(batch, SampleTs)), MaxOf(KeysOf(batch, SampleTs));
            var after := Upsert(t, region, metric, resolution, batch);
            && Filter(after.timeseries, Miss(region, metric, resolution, lo, hi))
               == Filter(t.timeseries, Miss(region, metric, resolution, lo, hi))
            && after.weatherHourly == t.weatherHourly
  {
    var lo, hi := MinOf(KeysOf(batch, SampleTs)), MaxOf(KeysOf(batch, SampleTs));
    var miss := Miss(region, metric, resolution, lo, hi);
    var kept := Filter(t.timeseries, miss);
    var rows := NewSeriesRows(region, metric, resolution, batch, t.nextSeriesId);
    FilterConcat(kept, rows, miss);
    FilterIdempotent(t.timeseries, miss);
    NewRowsInSpan(region, metric, resolution, batch, t.nextSeriesId);
    assert Filter(kept, miss) + [] == kept;
  }

  /** Window containment: afterwards the key's rows inside the span are
      exactly the batch rows, one per batch row in batch order, duplicates
      included. */
  lemma {:induction false} UpsertWindowIsBatch(t: Tables, region: string, metric: string, resolution: string, batch: seq<Sample>)
    requires |batch| > 0
    ensures var lo, hi := MinOf(KeysOf(batch, SampleTs)), MaxOf(KeysOf(batch, SampleTs));
            var after := Upsert(t, region, metric, resolution, batch);
            SamplesOf(Filter(after.timeseries, Hit(region, metric, resolution, lo, hi))) == batch
  {
    var lo, hi := MinOf(KeysOf(batch, SampleTs)), MaxOf(KeysOf(batch, SampleTs));
    var hit := Hit(region, metric, resolution, lo, hi);
    var kept := Filter(t.timeseries, Miss(region, metric, resolution, lo, hi));
    var rows := NewSeriesRows(region, metric, resolution, batch, t.nextSeriesId);
    FilterConcat(kept, rows, hit);
    KeptMisses(t.timeseries, region, metric, resolution, lo, hi);
    NewRowsInSpan(region, metric, resolution, batch, t.nextSeriesId);
    assert Filter(kept + rows, hit) == rows;
  }

  /** Every stored row of the key inside the span is deleted (the rows that
      replace it have added primary keys). */
  lemma {:induction false} UpsertDeletesSpan(t: Tables, region: string, metric: string, resolution: string, batch: seq<Sample>)
    requires |batch| > 0
    requires KeysValid(t)
    ensures var lo, hi := MinOf(KeysOf(batch, SampleTs)), MaxOf(KeysOf(batch, SampleTs));
            var after := Upsert(t, region, metric, resolution, batch);
            forall i :: 0 <= i < |t.timeseries| && InSpan(t.timeseries[i], region, metric, resolution, lo, hi)
                    ==> t.timeseries[i] !in after.timeseries
  {
    var lo, hi := MinOf(KeysOf(batch, SampleTs)), MaxOf(KeysOf(batch, SampleTs));
    var kept := Filter(t.timeseries, Miss(region, metric, resolution, lo, hi));
    var rows := NewSeriesRows(region, metric, resolution, batch, t.nextSeriesId);
    forall i | 0 <= i < |t.timeseries| && InSpan(t.timeseries[i], region, metric, resolution, lo, hi)
      ensures t.timeseries[i] !in kept + rows
    {
      var p := t.timeseries[i];
      assert SeriesId(p) < t.nextSeriesId;
      forall k | 0 <= k < |kept| ensures kept[k] != p {
        assert Miss(region, metric, resolution, lo, hi)(kept[k]);
      }
    }
  }

  /** Primary keys stay distinct and below the counter. */
  lemma {:induction false} UpsertKeepsKeysValid(t: Tables, region: string, metric: string, resolution: string, batch: seq<Sample>)
    requires KeysValid(t)
    ensures KeysValid(Upsert(t, region, metric, resolution, batch))
  {
    if |batch| > 0 {
      var lo, hi := MinOf(KeysOf(batch, SampleTs)), MaxOf(KeysOf(batch, SampleTs));
      var kept := Filter(t.timeseries, Miss(region, metric, resolution, lo, hi));
      var rows := NewSeriesRows(region, metric, resolution, batch, t.nextSeriesId);
      var all := kept + rows;
      FilterKeepsDistinct(t.timeseries, Miss(region, metric, resolution, lo, hi), SeriesId);
      forall i | 0 <= i < |kept| ensures kept[i].id < t.nextSeriesId {
        assert kept[i] in t.timeseries;
      }
      forall i, j | 0 <= i < j < |all| ensures SeriesId(all[i]) != SeriesId(all[j]) {
        if j < |kept| {
          assert all[i] == kept[i] && all[j] == kept[j];
        } else if i < |kept| {
          assert all[j] == rows[j - |kept|];
        }
      }
    }
  }

  lemma {:induction false} WithoutIdsConcat(a: seq<TimeSeriesPoint>, b: seq<TimeSeriesPoint>)
    ensures WithoutIds(a + b) == WithoutIds(a) + WithoutIds(b)
  {
    assert forall i :: 0 <= i < |a + b| ==> WithoutIds(a + b)[i] == (WithoutIds(a) + WithoutIds(b))[i];
  }

  /** Replacing the same window twice leaves the same rows as replacing it
      once, apart from the primary keys handed out. */
  lemma {:induction false} UpsertTwiceIsOnce(t: Tables, region: string, metric: string, resolution: string, batch: seq<Sample>)
    ensures var once := Upsert(t, region, metric, resolution, batch);
            var twice := Upsert(once, region, metric, resolution, batch);
            && WithoutIds(twice.timeseries) == WithoutIds(once.timeseries)
            && twice.weatherHourly == once.weatherHourly
  {
    if |batch| > 0 {
      var lo, hi := MinOf(KeysOf(batch, SampleTs)), MaxOf(KeysOf(batch, SampleTs));
      var miss := Miss(region, metric, resolution, lo, hi);
      var once := Upsert(t, region, metric, resolution, batch);
      var kept := Filter(t.timeseries, miss);
      var rows1 := NewSeriesRows(region, metric, resolution, batch, t.nextSeriesId);
      var rows2 := NewSeriesRows(region, metric, resolution, batch, once.nextSeriesId);
      UpsertKeepsOutsideSpan(t, region, metric, resolution, batch);
      FilterIdempotent(t.timeseries, miss);
      WithoutIdsConcat(kept, rows1);
      WithoutIdsConcat(kept, rows2);
      assert WithoutIds(rows1) == WithoutIds(rows2);
    }
  }

  // ---------------------------------------------------------------------------
  // ingest_weather
  // ---------------------------------------------------------------------------

  predicate InWeatherSpan(w: WeatherPoint, lo: Timestamp, hi: Timestamp)
  {
    lo <= w.ts <= hi
  }

  function WeatherMiss(lo: Timestamp, hi: Timestamp): WeatherPoint -> bool
  {
    w => !InWeatherSpan(w, lo, hi)
  }

  function WeatherHit(lo: Timestamp, hi: Timestamp): WeatherPoint -> bool
  {
    w => InWeatherSpan(w, lo, hi)
  }

  function WeatherSampleTs(w: WeatherSample): int { w.ts }

  function NewWeatherRows(rows: seq<WeatherSample>, firstId: nat): (r: seq<WeatherPoint>)
    ensures |r| == |rows|
  {
    seq(|rows|, i requires 0 <= i < |rows| =>
      WeatherPoint(firstId + i, rows[i].ts, rows[i].temperature2m, rows[i].windspeed10m, rows[i].precipitation))
  }

  /** The weather replace: keyed by instant only. */
  function ReplaceWeather(t: Tables, rows: seq<WeatherSample>): Tables
  {
    if |rows| == 0 then t
    else
      var lo, hi := MinOf(KeysOf(rows, WeatherSampleTs)), MaxOf(KeysOf(rows, WeatherSampleTs));
      t.(weatherHourly := Filter(t.weatherHourly, WeatherMiss(lo, hi)) + NewWeatherRows(rows, t.nextWeatherId),
         nextWeatherId := t.nextWeatherId + |rows|)
  }

  /** `payload.get("hourly", {})` when that is an object: a missing entry
      reads as an empty object. */
  function HourlyOf(p: WeatherPayload): Hourly
  {
    match p.hourly
    case HourlyObject(h) => h
    case _ => Hourly(None, None, None, None)
  }

  function TimesOf(h: Hourly): seq<Timestamp>
  {
    match h.time
    case Some(ts) => ts
    case None => []
  }

  /** `hourly.get(key, [])` for a reading column. */
  function Column(c: Option<seq<Option<real>>>): seq<Option<real>>
  {
    match c
    case Some(v) => v
    case None => []
  }

  /** The rows `ingest_weather` builds: a raise when `hourly` is present but
      not an object (`.get` on it fails); none when `time` is missing or empty;
      a raise when a reading column's length differs from `time`'s (a missing
      column counts as empty); otherwise one row per hour whose three readings
      each come from their own column, null exactly where that entry is null. */
  function WeatherBatch(p: WeatherPayload): (r: Result<seq<WeatherSample>, Failure>)
    ensures p.hourly.HourlyNotObject? ==> r == Err(BadPayload)
    ensures var h := HourlyOf(p);
            var times := TimesOf(h);
            && (!p.hourly.HourlyNotObject? && |times| == 0 ==> r == Ok([]))
            && (r.Err? <==> p.hourly.HourlyNotObject?
                            || (|times| > 0 && (|Column(h.temperature2m)| != |times|
                                                || |Column(h.windspeed10m)| != |times|
                                                || |Column(h.precipitation)| != |times|)))
            && (r.Ok? ==> |r.value| == |times|
                          && forall i :: 0 <= i < |r.value| ==>
                               && r.value[i].ts == times[i]
                               && r.value[i].temperature2m == Column(h.temperature2m)[i]
                               && r.value[i].windspeed10m == Column(h.windspeed10m)[i]
                               && r.value[i].precipitation == Column(h.precipitation)[i])
  {
    var h := HourlyOf(p);
    var times := TimesOf(h);
    if p.hourly.HourlyNotObject? then Err(BadPayload)
    else if |times| == 0 then Ok([])
    else
      var temp, wind, precip := Column(h.temperature2m), Column(h.windspeed10m), Column(h.precipitation);
      if |temp| != |times| || |wind| != |times| || |precip| != |times| then Err(BadPayload)
      else Ok(seq(|times|, i requires 0 <= i < |times| => WeatherSample(times[i], temp[i], wind[i], precip[i])))
  }

  /** `ingest_weather` on a snapshot, given what the fetch returned. */
  function IngestWeatherStep(t: Tables, fetched: Result<WeatherPayload, Failure>): Progress
  {
    match fetched
    case Err(e) => Progress(Raised(e), t)
    case Ok(p) =>
      match WeatherBatch(p)
      case Err(e) => Progress(Raised(e), t)
      case Ok(rows) => Progress(Done, ReplaceWeather(t, rows))
  }

  /** The weather replace deletes by instant span only, leaves the timeseries
      table alone, and afterwards the span holds exactly the new rows. */
  lemma {:induction false} ReplaceWeatherWindow(t: Tables, rows: seq<WeatherSample>)
    requires |rows| > 0
    ensures var lo, hi := MinOf(KeysOf(rows, WeatherSampleTs)), MaxOf(KeysOf(rows, WeatherSampleTs));
            var after := ReplaceWeather(t, rows);
            && Filter(after.weatherHourly, WeatherMiss(lo, hi)) == Filter(t.weatherHourly, WeatherMiss(lo, hi))
            && Filter(after.weatherHourly, WeatherHit(lo, hi)) == NewWeatherRows(rows, t.nextWeatherId)
            && after.timeseries == t.timeseries
  {
    var lo, hi := MinOf(KeysOf(rows, WeatherSampleTs)), MaxOf(KeysOf(rows, WeatherSampleTs));
    var miss, hit := WeatherMiss(lo, hi), WeatherHit(lo, hi);
    var kept := Filter(t.weatherHourly, miss);
    var added := NewWeatherRows(rows, t.nextWeatherId);
    forall i | 0 <= i < |added| ensures InWeatherSpan(added[i], lo, hi) {
      assert KeysOf(rows, WeatherSampleTs)[i] == added[i].ts;
    }
    FilterConcat(kept, added, miss);
    FilterConcat(kept, added, hit);
    FilterIdempotent(t.weatherHourly, miss);
    FilterDropsAll(added, miss);
    FilterKeepsAll(added, hit);
    FilterDropsAll(kept, hit);
    assert kept + [] == kept;
    assert [] + added == added;
  }

  /** Weather keys stay distinct and below the counter; the series table
      is untouched. */
  lemma ReplaceWeatherKeepsKeysValid(t: Tables, rows: seq<WeatherSample>)
    requires KeysValid(t)
    ensures KeysValid(ReplaceWeather(t, rows))
  {
    if |rows| > 0 {
      var lo, hi := MinOf(KeysOf(rows, WeatherSampleTs)), MaxOf(KeysOf(rows, WeatherSampleTs));
      var kept := Filter(t.weatherHourly, WeatherMiss(lo, hi));
      var added := NewWeatherRows(rows, t.nextWeatherId);
      var all := kept + added;
      FilterKeepsDistinct(t.weatherHourly, WeatherMiss(lo, hi), WeatherId);
      forall i | 0 <= i < |kept| ensures kept[i].id < t.nextWeatherId {
        assert kept[i] in t.weatherHourly;
      }
      forall i | 0 <= i < |added| ensures added[i].id == t.nextWeatherId + i {
      }
      forall i, j | 0 <= i < j < |all| ensures WeatherId(all[i]) != WeatherId(all[j]) {
        if j < |kept| {
          assert all[i] == kept[i] && all[j] == kept[j];
        } else if i < |kept| {
          assert all[i] == kept[i] && all[j] == added[j - |kept|];
        } else {
          assert all[i] == added[i - |kept|] && all[j] == added[j - |kept|];
        }
      }
      forall i | 0 <= i < |all| ensures all[i].id < t.nextWeatherId + |rows| {
        if i < |kept| { assert all[i] == kept[i]; } else { assert all[i] == added[i - |kept|]; }
      }
    }
  }

  /** An answer whose `hourly` object (or missing entry) has no hours
      writes nothing. */
  lemma NoHoursNoWrites(t: Tables, p: WeatherPayload)
    requires !p.hourly.HourlyNotObject?
    requires |TimesOf(HourlyOf(p))| == 0
    ensures IngestWeatherStep(t, Ok(p)) == Progress(Done, t)
  {
  }

  // ---------------------------------------------------------------------------
  // ingest_smard_metric
  // ---------------------------------------------------------------------------

  /** The keys probed for the chunk-id list, in order. */
  const ChunkKeys: seq<string> := ["timestamps", "data", "values"]

  /** How many of the most recent chunks are fetched. */
  const BackfillChunks: nat := 60

  /** The value of the first of `keys` under which `fields` holds a list. */
  function FirstList<T>(fields: map<string, Field<T>>, keys: seq<string>): (r: Option<seq<T>>)
    ensures r.None? <==> forall i :: 0 <= i < |keys| ==> !(keys[i] in fields && fields[keys[i]].ListOf?)
    ensures r.Some? ==> exists i :: 0 <= i < |keys| && keys[i] in fields && fields[keys[i]] == ListOf(r.value)
                                   && forall j :: 0 <= j < i ==> !(keys[j] in fields && fields[keys[j]].ListOf?)
  {
    if |keys| == 0 then None
    else if keys[0] in fields && fields[keys[0]].ListOf? then Some(fields[keys[0]].items)
    else
      var r := FirstList(fields, keys[1..]);
      assert r.Some? ==> exists i :: 1 <= i < |keys| && keys[i] in fields && fields[keys[i]] == ListOf(r.value)
                                   && forall j :: 0 <= j < i ==> !(keys[j] in fields && fields[keys[j]].ListOf?) by {
        if r.Some? {
          var i :| 0 <= i < |keys[1..]| && keys[1..][i] in fields && fields[keys[1..][i]] == ListOf(r.value)
                   && forall j :: 0 <= j < i ==> !(keys[1..][j] in fields && fields[keys[1..][j]].ListOf?);
          assert keys[i + 1] == keys[1..][i];
          forall j | 0 <= j < i + 1 ensures !(keys[j] in fields && fields[keys[j]].ListOf?) {
            if j > 0 { assert keys[j] == keys[1..][j - 1]; }
          }
        }
      }
      r
  }

  /** The chunk-id list of an index document. */
  function ChunkIds(idx: Payload<int>): seq<int>
  {
    match idx
    case Dict(fields) => (match FirstList(fields, ChunkKeys) case Some(ids) => ids case None => [])
    case BareList(items) => items
    case NotContainer => []
  }

  /** `timestamps[-60:]`: the last min(60, n) ids, in index order. */
  function RecentChunks(ids: seq<int>): (r: seq<int>)
    ensures |r| == Min(BackfillChunks, |ids|)
    ensures forall i :: 0 <= i < |r| ==> r[i] == ids[|ids| - |r| + i]
  {
    ids[|ids| - Min(BackfillChunks, |ids|)..]
  }

  /** Index probing: in a document object, the first of "timestamps", "data",
      "values" holding a list wins, even an empty one, and keys holding
      anything else are passed over; a bare list is used as it is; any other
      document yields no ids. */
  lemma ChunkIdsProbing(idx: Payload<int>)
    ensures idx.Dict? ==>
              var f := idx.fields;
              && (("timestamps" in f && f["timestamps"].ListOf?) ==> ChunkIds(idx) == f["timestamps"].items)
              && ((!("timestamps" in f && f["timestamps"].ListOf?) && "data" in f && f["data"].ListOf?)
                    ==> ChunkIds(idx) == f["data"].items)
              && ((!("timestamps" in f && f["timestamps"].ListOf?) && !("data" in f && f["data"].ListOf?)
                   && "values" in f && f["values"].ListOf?) ==> ChunkIds(idx) == f["values"].items)
              && ((!("timestamps" in f && f["timestamps"].ListOf?) && !("data" in f && f["data"].ListOf?)
                   && !("values" in f && f["values"].ListOf?)) ==> ChunkIds(idx) == [])
    ensures idx.BareList? ==> ChunkIds(idx) == idx.items
    ensures idx.NotContainer? ==> ChunkIds(idx) == []
  {
    if idx.Dict? {
      var f := idx.fields;
      assert ChunkKeys[0] == "timestamps" && ChunkKeys[1] == "data" && ChunkKeys[2] == "values";
      assert ChunkKeys[1..][1..] == ["values"];
    }
  }

  /** Python truthiness of `dict.get(key)`: None and empty lists are false. */
  predicate Truthy<T>(f: Option<Field<T>>)
  {
    match f
    case None => false
    case Some(ListOf(items)) => |items| > 0
    case Some(Object(b)) => b
    case Some(Scalar(b)) => b
  }

  /** `dict.get(key)`. */
  function Lookup<T>(fields: map<string, Field<T>>, key: string): Option<Field<T>>
  {
    if key in fields then Some(fields[key]) else None
  }

  /** Python's `a or b`. */
  function Or<T>(a: Option<Field<T>>, b: Option<Field<T>>): Option<Field<T>>
  {
    if Truthy(a) then a else b
  }

  /** `series.get("series") or series.get("data") or series.get("values")`. */
  function PointsField(fields: map<string, Field<Point>>): Option<Field<Point>>
  {
    Or(Or(Lookup(fields, "series"), Lookup(fields, "data")), Lookup(fields, "values"))
  }

  /** The point list of a chunk document. `Ok([])` means nothing is written:
      no truthy field, or a truthy object, from which pandas builds a frame
      without rows. `.get` on a document that is not an object raises, and so
      does handing pandas a truthy scalar. */
  function ChunkPoints(doc: Payload<Point>): (r: Result<seq<Point>, Failure>)
    ensures !doc.Dict? ==> r == Err(BadPayload)
    ensures doc.Dict? && !Truthy(PointsField(doc.fields)) ==> r == Ok([])
    ensures doc.Dict? && Truthy(PointsField(doc.fields)) ==>
              match PointsField(doc.fields).value
              case ListOf(items) => r == Ok(items) && |items| > 0
              case Object(_) => r == Ok([])
              case Scalar(_) => r == Err(BadPayload)
  {
    match doc
    case Dict(fields) =>
      var chosen := PointsField(fields);
      if !Truthy(chosen) then Ok([])
      else
        (match chosen.value
         case ListOf(items) => Ok(items)
         case Object(_) => Ok([])
         case Scalar(_) => Err(BadPayload))
    case _ => Err(BadPayload)
  }

  /** The point list is the first truthy one of "series", "data", "values". */
  lemma PointsFieldIsFirstTruthy(fields: map<string, Field<Point>>)
    ensures Truthy(Lookup(fields, "series")) ==> PointsField(fields) == Lookup(fields, "series")
    ensures (!Truthy(Lookup(fields, "series")) && Truthy(Lookup(fields, "data")))
              ==> PointsField(fields) == Lookup(fields, "data")
    ensures (!Truthy(Lookup(fields, "series")) && !Truthy(Lookup(fields, "data")))
              ==> PointsField(fields) == Lookup(fields, "values")
  {
  }

  /** `pd.to_datetime(ts_ms, unit="ms", utc=True)`, to whole UTC seconds. */
  function EpochMsToUtc(ms: int): (t: Timestamp)
    ensures t * 1000 <= ms < t * 1000 + 1000
  {
    ms / 1000
  }

  predicate PointComplete(p: Point)
  {
    p.tsMs.Some? && p.value.Some?
  }

  /** The sample a complete point becomes. */
  function ToSample(p: Point): Sample
    requires PointComplete(p)
  {
    Sample(EpochMsToUtc(p.tsMs.value), p.value.value)
  }

  /** Convert stamps and `dropna()`: a point missing either half is dropped,
      the others keep their order. */
  function CleanBatch(points: seq<Point>): (r: seq<Sample>)
    ensures |r| <= |points|
    ensures (forall i :: 0 <= i < |points| ==> PointComplete(points[i])) ==> |r| == |points|
    ensures (forall i :: 0 <= i < |points| ==> !PointComplete(points[i])) ==> r == []
  {
    if |points| == 0 then []
    else
      var p := points[0];
      (if PointComplete(p) then [ToSample(p)] else []) + CleanBatch(points[1..])
  }

  /** The cleaned batch is exactly the complete points, each converted, in
      their order. */
  lemma {:induction false} CleanBatchConvertsCompletePoints(points: seq<Point>)
    ensures var c := Filter(points, PointComplete);
            && |CleanBatch(points)| == |c|
            && forall k :: 0 <= k < |c| ==> CleanBatch(points)[k] == ToSample(c[k])
  {
    if |points| > 0 {
      var p := points[0];
      CleanBatchConvertsCompletePoints(points[1..]);
      var c := Filter(points, PointComplete);
      var tail := Filter(points[1..], PointComplete);
      assert c == (if PointComplete(p) then [p] else []) + tail;
      var r := CleanBatch(points);
      assert r == (if PointComplete(p) then [ToSample(p)] else []) + CleanBatch(points[1..]);
      if PointComplete(p) {
        forall k | 1 <= k < |c| ensures r[k] == ToSample(c[k]) {
          assert c[k] == tail[k - 1];
        }
      }
    }
  }

  /** One chunk of `ingest_smard_metric`'s loop. */
  function IngestChunk(t: Tables, u: Unit, fetchSeries: (string, string, string, int) -> Result<Payload<Point>, Failure>, chunk: int): Progress
  {
    match fetchSeries(u.filterId, u.region, u.resolution, chunk)
    case Err(e) => Progress(Raised(e), t)
    case Ok(doc) =>
      match ChunkPoints(doc)
      case Err(e) => Progress(Raised(e), t)
      case Ok(points) =>
        if |points| == 0 then Progress(Done, t)
        else Progress(Done, Upsert(t, u.region, u.metric, u.resolution, CleanBatch(points)))
  }

  /** The chunk loop: chunks in order, stopping at the first raise. */
  function IngestChunks(t: Tables, u: Unit, fetchSeries: (string, string, string, int) -> Result<Payload<Point>, Failure>, chunks: seq<int>): Progress
    decreases |chunks|
  {
    if |chunks| == 0 then Progress(Done, t)
    else
      var p := IngestChunk(t, u, fetchSeries, chunks[0]);
      if p.outcome.Raised? then p else IngestChunks(p.tables, u, fetchSeries, chunks[1..])
  }

  /** `ingest_smard_metric` on a snapshot. */
  function IngestMetric(t: Tables, u: Unit, up: Upstream): Progress
  {
    match up.fetchIndex(u.filterId, u.region, u.resolution)
    case Err(e) => Progress(Raised(e), t)
    case Ok(idx) =>
      var ids := ChunkIds(idx);
      if |ids| == 0 then Progress(Done, t)
      else IngestChunks(t, u, up.fetchSeries, RecentChunks(ids))
  }

  /** A chunk without points, or whose points field is an object, writes
      nothing and does not raise. */
  lemma EmptyChunkIsSkipped(t: Tables, u: Unit, fetchSeries: (string, string, string, int) -> Result<Payload<Point>, Failure>, chunk: int)
    requires fetchSeries(u.filterId, u.region, u.resolution, chunk).Ok?
    requires var doc := fetchSeries(u.filterId, u.region, u.resolution, chunk).value;
             doc.Dict? && (!Truthy(PointsField(doc.fields)) || PointsField(doc.fields).value.Object?)
    ensures IngestChunk(t, u, fetchSeries, chunk) == Progress(Done, t)
  {
  }

  /** An index document without a chunk list writes nothing and does not raise. */
  lemma NoChunkListNoWrites(t: Tables, u: Unit, up: Upstream)
    requires up.fetchIndex(u.filterId, u.region, u.resolution).Ok?
    requires ChunkIds(up.fetchIndex(u.filterId, u.region, u.resolution).value) == []
    ensures IngestMetric(t, u, up) == Progress(Done, t)
  {
  }

  /** The chunk loop depends on the fetch only at the chunks it is given:
      two fetches that agree there give the same result. */
  lemma {:induction false} ChunksReadOnlyTheirChunks(
    t: Tables, u: Unit,
    f: (string, string, string, int) -> Result<Payload<Point>, Failure>,
    g: (string, string, string, int) -> Result<Payload<Point>, Failure>,
    chunks: seq<int>)
    requires forall i :: 0 <= i < |chunks| ==> f(u.filterId, u.region, u.resolution, chunks[i]) == g(u.filterId, u.region, u.resolution, chunks[i])
    ensures IngestChunks(t, u, f, chunks) == IngestChunks(t, u, g, chunks)
    decreases |chunks|
  {
    if |chunks| > 0 {
      var p := IngestChunk(t, u, f, chunks[0]);
      assert p == IngestChunk(t, u, g, chunks[0]);
      if p.outcome.Done? {
        ChunksReadOnlyTheirChunks(p.tables, u, f, g, chunks[1..]);
      }
    }
  }

  /** Only the last min(60, n) chunks of the index are fetched: two upstreams
      that give the same index and agree on those chunks ingest the same. */
  lemma OnlyRecentChunksFetched(t: Tables, u: Unit, up: Upstream, other: Upstream)
    requires up.fetchIndex(u.filterId, u.region, u.resolution) == other.fetchIndex(u.filterId, u.region, u.resolution)
    requires up.fetchIndex(u.filterId, u.region, u.resolution).Ok?
    requires var recent := RecentChunks(ChunkIds(up.fetchIndex(u.filterId, u.region, u.resolution).value));
             forall i :: 0 <= i < |recent| ==>
               up.fetchSeries(u.filterId, u.region, u.resolution, recent[i])
               == other.fetchSeries(u.filterId, u.region, u.resolution, recent[i])
    ensures IngestMetric(t, u, up) == IngestMetric(t, u, other)
  {
    var ids := ChunkIds(up.fetchIndex(u.filterId, u.region, u.resolution).value);
    ChunksReadOnlyTheirChunks(t, u, up.fetchSeries, other.fetchSeries, RecentChunks(ids));
  }

  /** The chunk loop over `a + b` runs `a`, then `b` unless `a` raised. */
  lemma {:induction false} IngestChunksConcat(
    t: Tables, u: Unit, f: (string, string, string, int) -> Result<Payload<Point>, Failure>, a: seq<int>, b: seq<int>)
    ensures var pa := IngestChunks(t, u, f, a);
            IngestChunks(t, u, f, a + b) == if pa.outcome.Raised? then pa else IngestChunks(pa.tables, u, f, b)
    decreases |a|
  {
    if |a| == 0 {
      assert a + b == b;
    } else {
      assert (a + b)[0] == a[0] && (a + b)[1..] == a[1..] + b;
      var p := IngestChunk(t, u, f, a[0]);
      if p.outcome.Done? {
        IngestChunksConcat(p.tables, u, f, a[1..], b);
      }
    }
  }

  /** How many chunks the loop gets through before the first raise (all of
      them when none raises). */
  function ChunksBeforeRaise(t: Tables, u: Unit, f: (string, string, string, int) -> Result<Payload<Point>, Failure>, chunks: seq<int>): (k: nat)
    ensures k <= |chunks|
    decreases |chunks|
  {
    if |chunks| == 0 then 0
    else
      var p := IngestChunk(t, u, f, chunks[0]);
      if p.outcome.Raised? then 0 else 1 + ChunksBeforeRaise(p.tables, u, f, chunks[1..])
  }

  /** A raise in the chunk loop keeps the windows committed before it: the
      database is what the chunks before the failing one left, and the
      failing chunk wrote nothing. */
  lemma {:induction false} ChunkFailureKeepsEarlierWindows(
    t: Tables, u: Unit, f: (string, string, string, int) -> Result<Payload<Point>, Failure>, chunks: seq<int>)
    requires IngestChunks(t, u, f, chunks).outcome.Raised?
    ensures var k := ChunksBeforeRaise(t, u, f, chunks);
            && k < |chunks|
            && IngestChunks(t, u, f, chunks[..k]).outcome == Done
            && IngestChunks(t, u, f, chunks).tables == IngestChunks(t, u, f, chunks[..k]).tables
    decreases |chunks|
  {
    var p := IngestChunk(t, u, f, chunks[0]);
    if p.outcome.Raised? {
      assert chunks[..0] == [];
    } else {
      var rest := chunks[1..];
      ChunkFailureKeepsEarlierWindows(p.tables, u, f, rest);
      var k := ChunksBeforeRaise(p.tables, u, f, rest);
      var prefix := chunks[..k + 1];
      assert prefix[0] == chunks[0] && prefix[1..] == rest[..k];
    }
  }

  /** SMARD ingestion never touches the weather table. */
  lemma {:induction false} IngestChunksKeepsWeather(
    t: Tables, u: Unit, f: (string, string, string, int) -> Result<Payload<Point>, Failure>, chunks: seq<int>)
    ensures IngestChunks(t, u, f, chunks).tables.weatherHourly == t.weatherHourly
    ensures IngestChunks(t, u, f, chunks).tables.nextWeatherId == t.nextWeatherId
    decreases |chunks|
  {
    if |chunks| > 0 {
      var p := IngestChunk(t, u, f, chunks[0]);
      if p.outcome.Done? {
        IngestChunksKeepsWeather(p.tables, u, f, chunks[1..]);
      }
    }
  }

  // ---------------------------------------------------------------------------
  // run_ingestion
  // ---------------------------------------------------------------------------

  const Regions: seq<string> := ["DE", "DE-LU"]
  const Resolutions: seq<string> := ["quarterhour", "hour", "day"]
  const Metrics: seq<string> := ["load", "wind", "solar"]

  /** The filter id configured for the metric at position `mi`. */
  function FilterFor(cfg: Config, mi: nat): string
    requires mi < |Metrics|
  {
    if mi == 0 then cfg.loadFilter else if mi == 1 then cfg.windFilter else cfg.solarFilter
  }

  /** The innermost loop from metric position `mi` on: configured metrics only. */
  function MetricUnits(cfg: Config, ri: nat, si: nat, mi: nat): seq<Unit>
    requires ri < |Regions| && si < |Resolutions| && mi <= |Metrics|
    decreases |Metrics| - mi
  {
    if mi == |Metrics| then []
    else
      (if FilterFor(cfg, mi) != "" then [Unit(Regions[ri], Metrics[mi], FilterFor(cfg, mi), Resolutions[si])] else [])
      + MetricUnits(cfg, ri, si, mi + 1)
  }

  /** The middle loop from resolution position `si` on. */
  function ResolutionUnits(cfg: Config, ri: nat, si: nat): seq<Unit>
    requires ri < |Regions| && si <= |Resolutions|
    decreases |Resolutions| - si
  {
    if si == |Resolutions| then []
    else MetricUnits(cfg, ri, si, 0) + ResolutionUnits(cfg, ri, si + 1)
  }

  /** The outer loop from region position `ri` on. */
  function RegionUnits(cfg: Config, ri: nat): seq<Unit>
    requires ri <= |Regions|
    decreases |Regions| - ri
  {
    if ri == |Regions| then []
    else ResolutionUnits(cfg, ri, 0) + RegionUnits(cfg, ri + 1)
  }

  /** Every market unit of one run, in the order the loops visit them. */
  function Units(cfg: Config): seq<Unit>
  {
    RegionUnits(cfg, 0)
  }

  /** The market units in order, stopping at the first raise. */
  function RunUnits(t: Tables, units: seq<Unit>, up: Upstream): Progress
    decreases |units|
  {
    if |units| == 0 then Progress(Done, t)
    else
      var p := IngestMetric(t, units[0], up);
      if p.outcome.Raised? then p else RunUnits(p.tables, units[1..], up)
  }

  /** `run_ingestion` on a snapshot: every market unit, then one weather refresh. */
  function RunIngestion(t: Tables, cfg: Config, up: Upstream): Progress
  {
    var market := RunUnits(t, Units(cfg), up);
    if market.outcome.Raised? then market
    else IngestWeatherStep(market.tables, up.fetchWeather(cfg.site))
  }

  /** Position of a unit in the nested loops: region, then resolution, then metric. */
  function Rank(u: Unit): nat
  {
    (if u.region == "DE" then 0 else 1) * 9
    + (if u.resolution == "quarterhour" then 0 else if u.resolution == "hour" then 1 else 2) * 3
    + (if u.metric == "load" then 0 else if u.metric == "wind" then 1 else 2)
  }

  ghost predicate Configured(cfg: Config, u: Unit)
  {
    exists ri, si, mi :: 0 <= ri < |Regions| && 0 <= si < |Resolutions| && 0 <= mi < |Metrics|
      && FilterFor(cfg, mi) != "" && u == Unit(Regions[ri], Metrics[mi], FilterFor(cfg, mi), Resolutions[si])
  }

  ghost predicate RanksIncreasing(us: seq<Unit>)
  {
    forall i, j :: 0 <= i < j < |us| ==> Rank(us[i]) < Rank(us[j])
  }

  ghost predicate RanksWithin(us: seq<Unit>, lo: int, hi: int)
  {
    forall i :: 0 <= i < |us| ==> lo <= Rank(us[i]) < hi
  }

  lemma RanksConcat(a: seq<Unit>, b: seq<Unit>, lo: int, mid: int, hi: int)
    requires lo <= mid <= hi
    requires RanksIncreasing(a) && RanksIncreasing(b)
    requires RanksWithin(a, lo, mid) && RanksWithin(b, mid, hi)
    ensures RanksIncreasing(a + b) && RanksWithin(a + b, lo, hi)
  {
    forall i, j | 0 <= i < j < |a + b| ensures Rank((a + b)[i]) < Rank((a + b)[j]) {
      if j < |a| {
        assert (a + b)[i] == a[i] && (a + b)[j] == a[j];
      } else if i >= |a| {
        assert (a + b)[i] == b[i - |a|] && (a + b)[j] == b[j - |a|];
      } else {
        assert (a + b)[i] == a[i] && (a + b)[j] == b[j - |a|];
      }
    }
    forall i | 0 <= i < |a + b| ensures lo <= Rank((a + b)[i]) < hi {
      if i < |a| { assert (a + b)[i] == a[i]; } else { assert (a + b)[i] == b[i - |a|]; }
    }
  }

  lemma {:induction false} MetricUnitsOrdered(cfg: Config, ri: nat, si: nat, mi: nat)
    requires ri < |Regions| && si < |Resolutions| && mi <= |Metrics|
    ensures RanksIncreasing(MetricUnits(cfg, ri, si, mi))
    ensures RanksWithin(MetricUnits(cfg, ri, si, mi), ri * 9 + si * 3 + mi, ri * 9 + si * 3 + 3)
    decreases |Metrics| - mi
  {
    if mi < |Metrics| {
      MetricUnitsOrdered(cfg, ri, si, mi + 1);
      var head: seq<Unit> := if FilterFor(cfg, mi) != "" then [Unit(Regions[ri], Metrics[mi], FilterFor(cfg, mi), Resolutions[si])] else [];
      assert Rank(Unit(Regions[ri], Metrics[mi], FilterFor(cfg, mi), Resolutions[si])) == ri * 9 + si * 3 + mi;
      RanksConcat(head, MetricUnits(cfg, ri, si, mi + 1), ri * 9 + si * 3 + mi, ri * 9 + si * 3 + mi + 1, ri * 9 + si * 3 + 3);
    }
  }

  lemma {:induction false} ResolutionUnitsOrdered(cfg: Config, ri: nat, si: nat)
    requires ri < |Regions| && si <= |Resolutions|
    ensures RanksIncreasing(ResolutionUnits(cfg, ri, si))
    ensures RanksWithin(ResolutionUnits(cfg, ri, si), ri * 9 + si * 3, ri * 9 + 9)
    decreases |Resolutions| - si
  {
    if si < |Resolutions| {
      MetricUnitsOrdered(cfg, ri, si, 0);
      ResolutionUnitsOrdered(cfg, ri, si + 1);
      RanksConcat(MetricUnits(cfg, ri, si, 0), ResolutionUnits(cfg, ri, si + 1), ri * 9 + si * 3, ri * 9 + si * 3 + 3, ri * 9 + 9);
    }
  }

  lemma {:induction false} RegionUnitsOrdered(cfg: Config, ri: nat)
    requires ri <= |Regions|
    ensures RanksIncreasing(RegionUnits(cfg, ri))
    ensures RanksWithin(RegionUnits(cfg, ri), ri * 9, 18)
    decreases |Regions| - ri
  {
    if ri < |Regions| {
      ResolutionUnitsOrdered(cfg, ri, 0);
      RegionUnitsOrdered(cfg, ri + 1);
      RanksConcat(ResolutionUnits(cfg, ri, 0), RegionUnits(cfg, ri + 1), ri * 9, ri * 9 + 9, 18);
    }
  }

  /** The run visits regions, then resolutions, then metrics, in nested loop
      order: each unit comes strictly after the previous in that order. */
  lemma UnitsInNestedOrder(cfg: Config)
    ensures RanksIncreasing(Units(cfg))
  {
    RegionUnitsOrdered(cfg, 0);
  }

  lemma {:induction false} MetricUnitsExact(cfg: Config, ri: nat, si: nat, mi: nat, u: Unit)
    requires ri < |Regions| && si < |Resolutions| && mi <= |Metrics|
    ensures u in MetricUnits(cfg, ri, si, mi) <==>
              exists m :: mi <= m < |Metrics| && FilterFor(cfg, m) != ""
                          && u == Unit(Regions[ri], Metrics[m], FilterFor(cfg, m), Resolutions[si])
    decreases |Metrics| - mi
  {
    if mi < |Metrics| {
      MetricUnitsExact(cfg, ri, si, mi + 1, u);
    }
  }

  lemma {:induction false} ResolutionUnitsExact(cfg: Config, ri: nat, si: nat, u: Unit)
    requires ri < |Regions| && si <= |Resolutions|
    ensures u in ResolutionUnits(cfg, ri, si) <==>
              exists s, m :: si <= s < |Resolutions| && 0 <= m < |Metrics| && FilterFor(cfg, m) != ""
                             && u == Unit(Regions[ri], Metrics[m], FilterFor(cfg, m), Resolutions[s])
    decreases |Resolutions| - si
  {
    if si < |Resolutions| {
      MetricUnitsExact(cfg, ri, si, 0, u);
      ResolutionUnitsExact(cfg, ri, si + 1, u);
    }
  }

  lemma {:induction false} RegionUnitsExact(cfg: Config, ri: nat, u: Unit)
    requires ri <= |Regions|
    ensures u in RegionUnits(cfg, ri) <==>
              exists r, s, m :: ri <= r < |Regions| && 0 <= s < |Resolutions| && 0 <= m < |Metrics| && FilterFor(cfg, m) != ""
                                && u == Unit(Regions[r], Metrics[m], FilterFor(cfg, m), Resolutions[s])
    decreases |Regions| - ri
  {
    if ri < |Regions| {
      ResolutionUnitsExact(cfg, ri, 0, u);
      RegionUnitsExact(cfg, ri + 1, u);
    }
  }

  /** The run visits exactly the configured units: every region, every
      resolution, every metric whose filter id is not empty. */
  lemma UnitsAreTheConfiguredOnes(cfg: Config, u: Unit)
    ensures u in Units(cfg) <==> Configured(cfg, u)
  {
    RegionUnitsExact(cfg, 0, u);
  }

  /** Market units run one after another; a raise skips all later ones. */
  lemma {:induction false} RunUnitsConcat(t: Tables, a: seq<Unit>, b: seq<Unit>, up: Upstream)
    ensures var pa := RunUnits(t, a, up);
            RunUnits(t, a + b, up) == if pa.outcome.Raised? then pa else RunUnits(pa.tables, b, up)
    decreases |a|
  {
    if |a| == 0 {
      assert a + b == b;
    } else {
      assert (a + b)[0] == a[0] && (a + b)[1..] == a[1..] + b;
      var p := IngestMetric(t, a[0], up);
      if p.outcome.Done? {
        RunUnitsConcat(p.tables, a[1..], b, up);
      }
    }
  }

  lemma IngestMetricKeepsWeather(t: Tables, u: Unit, up: Upstream)
    ensures IngestMetric(t, u, up).tables.weatherHourly == t.weatherHourly
    ensures IngestMetric(t, u, up).tables.nextWeatherId == t.nextWeatherId
  {
    match up.fetchIndex(u.filterId, u.region, u.resolution)
    case Err(_) =>
    case Ok(idx) =>
      if |ChunkIds(idx)| > 0 {
        IngestChunksKeepsWeather(t, u, up.fetchSeries, RecentChunks(ChunkIds(idx)));
      }
  }

  lemma {:induction false} RunUnitsKeepsWeather(t: Tables, units: seq<Unit>, up: Upstream)
    ensures RunUnits(t, units, up).tables.weatherHourly == t.weatherHourly
    ensures RunUnits(t, units, up).tables.nextWeatherId == t.nextWeatherId
    decreases |units|
  {
    if |units| > 0 {
      var p := IngestMetric(t, units[0], up);
      IngestMetricKeepsWeather(t, units[0], up);
      if p.outcome.Done? {
        RunUnitsKeepsWeather(p.tables, units[1..], up);
      }
    }
  }

  /** Weather is refreshed exactly once, after all market units: when they
      all return, the final weather table is one weather refresh of the
      initial one and the market rows are what the units wrote; when one
      raises, the weather table is untouched. */
  lemma WeatherOnceAfterMarket(t: Tables, cfg: Config, up: Upstream)
    ensures var market := RunUnits(t, Units(cfg), up);
            var run := RunIngestion(t, cfg, up);
            && (market.outcome.Done? ==>
                  && run.tables.timeseries == market.tables.timeseries
                  && run.tables.weatherHourly == IngestWeatherStep(t, up.fetchWeather(cfg.site)).tables.weatherHourly)
            && (market.outcome.Raised? ==> run == market && run.tables.weatherHourly == t.weatherHourly)
  {
    RunUnitsKeepsWeather(t, Units(cfg), up);
  }

  /** One chunk keeps the primary keys valid. */
  lemma IngestChunkKeepsKeysValid(t: Tables, u: Unit, f: (string, string, string, int) -> Result<Payload<Point>, Failure>, chunk: int)
    requires KeysValid(t)
    ensures KeysValid(IngestChunk(t, u, f, chunk).tables)
  {
    match f(u.filterId, u.region, u.resolution, chunk)
    case Err(_) =>
    case Ok(doc) =>
      match ChunkPoints(doc)
      case Err(_) =>
      case Ok(points) =>
        UpsertKeepsKeysValid(t, u.region, u.metric, u.resolution, CleanBatch(points));
  }

  lemma {:induction false} IngestChunksKeepsKeysValid(
    t: Tables, u: Unit, f: (string, string, string, int) -> Result<Payload<Point>, Failure>, chunks: seq<int>)
    requires KeysValid(t)
    ensures KeysValid(IngestChunks(t, u, f, chunks).tables)
    decreases |chunks|
  {
    if |chunks| > 0 {
      var p := IngestChunk(t, u, f, chunks[0]);
      IngestChunkKeepsKeysValid(t, u, f, chunks[0]);
      if p.outcome.Done? {
        IngestChunksKeepsKeysValid(p.tables, u, f, chunks[1..]);
      }
    }
  }

  lemma {:induction false} RunUnitsKeepsKeysValid(t: Tables, units: seq<Unit>, up: Upstream)
    requires KeysValid(t)
    ensures KeysValid(RunUnits(t, units, up).tables)
    decreases |units|
  {
    if |units| > 0 {
      var u := units[0];
      var p := IngestMetric(t, u, up);
      match up.fetchIndex(u.filterId, u.region, u.resolution)
      case Err(_) =>
      case Ok(idx) =>
        if |ChunkIds(idx)| > 0 {
          IngestChunksKeepsKeysValid(t, u, up.fetchSeries, RecentChunks(ChunkIds(idx)));
        }
      if p.outcome.Done? {
        RunUnitsKeepsKeysValid(p.tables, units[1..], up);
      }
    }
  }

  /** A whole ingestion pass, raising or not, leaves every primary key
      distinct and below its table's counter; with the fresh schema this holds
      of every store a sequence of passes reaches. */
  lemma RunIngestionKeepsKeysValid(t: Tables, cfg: Config, up: Upstream)
    requires KeysValid(t)
    ensures KeysValid(RunIngestion(t, cfg, up).tables)
  {
    var market := RunUnits(t, Units(cfg), up);
    RunUnitsKeepsKeysValid(t, Units(cfg), up);
    if market.outcome.Done? {
      match up.fetchWeather(cfg.site)
      case Err(_) =>
      case Ok(p) =>
        match WeatherBatch(p)
        case Err(_) =>
        case Ok(rows) =>
          ReplaceWeatherKeepsKeysValid(market.tables, rows);
    }
  }

  // ---------------------------------------------------------------------------
  // The step-by-step operations on the database
  // ---------------------------------------------------------------------------

  /** `_upsert_timeseries`: delete the span, then bulk-insert row by row. */
  method UpsertTimeseries(db: Database, region: string, metric: string, resolution: string, batch: seq<Sample>)
    modifies db
    ensures db.State() == Upsert(old(db.State()), region, metric, resolution, batch)
  {
    if |batch| == 0 {
      return;
    }
    var lo, hi := MinOf(KeysOf(batch, SampleTs)), MaxOf(KeysOf(batch, SampleTs));
    db.timeseries := Filter(db.timeseries, Miss(region, metric, resolution, lo, hi));
    ghost var kept := db.timeseries;
    var i := 0;
    while i < |batch|
      invariant 0 <= i <= |batch|
      invariant db.timeseries == kept + NewSeriesRows(region, metric, resolution, batch[..i], old(db.nextSeriesId))
      invariant db.nextSeriesId == old(db.nextSeriesId) + i
      invariant db.weatherHourly == old(db.weatherHourly) && db.nextWeatherId == old(db.nextWeatherId)
    {
      var row := TimeSeriesPoint(db.nextSeriesId, region, metric, resolution, batch[i].ts, batch[i].value);
      assert NewSeriesRows(region, metric, resolution, batch[..i + 1], old(db.nextSeriesId))
          == NewSeriesRows(region, metric, resolution, batch[..i], old(db.nextSeriesId)) + [row];
      db.timeseries := db.timeseries + [row];
      db.nextSeriesId := db.nextSeriesId + 1;
      i := i + 1;
    }
    assert batch[..i] == batch;
  }

  /** One more sample adds one row, keyed `firstId + i`. */
  lemma NewWeatherRowsSnoc(rows: seq<WeatherSample>, i: nat, firstId: nat)
    requires i < |rows|
    ensures NewWeatherRows(rows[..i + 1], firstId)
            == NewWeatherRows(rows[..i], firstId)
               + [WeatherPoint(firstId + i, rows[i].ts, rows[i].temperature2m, rows[i].windspeed10m, rows[i].precipitation)]
  {
  }

  /** The delete-then-insert half of `ingest_weather`. */
  method ReplaceWeatherRows(db: Database, rows: seq<WeatherSample>)
    requires |rows| > 0
    modifies db
    ensures db.State() == ReplaceWeather(old(db.State()), rows)
  {
    var lo, hi := MinOf(KeysOf(rows, WeatherSampleTs)), MaxOf(KeysOf(rows, WeatherSampleTs));
    db.weatherHourly := Filter(db.weatherHourly, WeatherMiss(lo, hi));
    ghost var kept := db.weatherHourly;
    var i := 0;
    while i < |rows|
      invariant 0 <= i <= |rows|
      invariant db.weatherHourly == kept + NewWeatherRows(rows[..i], old(db.nextWeatherId))
      invariant db.nextWeatherId == old(db.nextWeatherId) + i
      invariant db.timeseries == old(db.timeseries) && db.nextSeriesId == old(db.nextSeriesId)
    {
      var row := rows[i];
      var point := WeatherPoint(db.nextWeatherId, row.ts, row.temperature2m, row.windspeed10m, row.precipitation);
      NewWeatherRowsSnoc(rows, i, old(db.nextWeatherId));
      db.weatherHourly := db.weatherHourly + [point];
      db.nextWeatherId := db.nextWeatherId + 1;
      i := i + 1;
    }
    assert rows[..i] == rows;
  }

  /** `ingest_weather`: fetch, build one row per hour, replace their span. */
  method IngestWeather(db: Database, site: WeatherSite, up: Upstream) returns (o: Outcome)
    modifies db
    ensures Progress(o, db.State()) == IngestWeatherStep(old(db.State()), up.fetchWeather(site))
  {
    var fetched := up.fetchWeather(site);
    if fetched.Err? {
      return Raised(fetched.error);
    }
    if fetched.value.hourly.HourlyNotObject? {
      return Raised(BadPayload);
    }
    var hourly := HourlyOf(fetched.value);
    var times := TimesOf(hourly);
    if |times| == 0 {
      return Done;
    }
    var temp, wind, precip := Column(hourly.temperature2m), Column(hourly.windspeed10m), Column(hourly.precipitation);
    if |temp| != |times| || |wind| != |times| || |precip| != |times| {
      return Raised(BadPayload);
    }
    var rows := seq(|times|, i requires 0 <= i < |times| => WeatherSample(times[i], temp[i], wind[i], precip[i]));
    assert WeatherBatch(fetched.value) == Ok(rows);
    ReplaceWeatherRows(db, rows);
    return Done;
  }

  /** The chunk list of an index document: the first list among the
      known keys of a dictionary, a bare list itself, nothing otherwise. */
  method ChunkList(idx: Payload<int>) returns (timestamps: seq<int>)
    ensures timestamps == ChunkIds(idx)
  {
    timestamps := [];
    match idx {
      case Dict(fields) =>
        var k := 0;
        while k < |ChunkKeys|
          invariant 0 <= k <= |ChunkKeys|
          invariant timestamps == []
          invariant FirstList(fields, ChunkKeys) == FirstList(fields, ChunkKeys[k..])
        {
          var key := ChunkKeys[k];
          if key in fields && fields[key].ListOf? {
            timestamps := fields[key].items;
            break;
          }
          assert ChunkKeys[k..][1..] == ChunkKeys[k + 1..];
          k := k + 1;
        }
      case BareList(items) =>
        timestamps := items;
      case NotContainer =>
    }
  }

  /** One turn of the chunk loop: fetch the chunk, raise on a failed fetch
      or a malformed document, skip it when it has no points, otherwise
      replace its span. */
  method IngestOneChunk(db: Database, u: Unit, up: Upstream, chunk: int) returns (o: Outcome)
    modifies db
    ensures Progress(o, db.State()) == IngestChunk(old(db.State()), u, up.fetchSeries, chunk)
  {
    var series := up.fetchSeries(u.filterId, u.region, u.resolution, chunk);
    if series.Err? {
      return Raised(series.error);
    }
    var doc := series.value;
    if !doc.Dict? {
      return Raised(BadPayload);
    }
    var points := Or(Or(Lookup(doc.fields, "series"), Lookup(doc.fields, "data")), Lookup(doc.fields, "values"));
    if !Truthy(points) {
      return Done;
    }
    if points.value.Scalar? {
      return Raised(BadPayload);
    }
    var batch := if points.value.ListOf? then CleanBatch(points.value.items) else [];
    UpsertTimeseries(db, u.region, u.metric, u.resolution, batch);
    return Done;
  }

  /** The chunk loop of `ingest_smard_metric`: chunks in order, stopping at
      the first raise. */
  method IngestChunkList(db: Database, u: Unit, up: Upstream, recent: seq<int>) returns (o: Outcome)
    modifies db
    ensures Progress(o, db.State()) == IngestChunks(old(db.State()), u, up.fetchSeries, recent)
  {
    ghost var target := IngestChunks(db.State(), u, up.fetchSeries, recent);
    o := Done;
    var i := 0;
    while i < |recent| && o.Done?
      invariant 0 <= i <= |recent|
      invariant o.Done? ==> target == IngestChunks(db.State(), u, up.fetchSeries, recent[i..])
      invariant o.Raised? ==> target == Progress(o, db.State())
    {
      assert recent[i..][1..] == recent[i + 1..];
      o := IngestOneChunk(db, u, up, recent[i]);
      i := i + 1;
    }
  }

  /** `ingest_smard_metric`: probe the index for the chunk list, then fetch
      and replace the last 60 chunks in order, skipping empty ones. */
  method IngestSmardMetric(db: Database, u: Unit, up: Upstream) returns (o: Outcome)
    modifies db
    ensures Progress(o, db.State()) == IngestMetric(old(db.State()), u, up)
  {
    var fetched := up.fetchIndex(u.filterId, u.region, u.resolution);
    if fetched.Err? {
      return Raised(fetched.error);
    }
    var timestamps := ChunkList(fetched.value);
    if |timestamps| == 0 {
      return Done;
    }
    o := IngestChunkList(db, u, up, RecentChunks(timestamps));
  }

  lemma RunUnitsCons(t: Tables, u: Unit, rest: seq<Unit>, up: Upstream)
    ensures var p := IngestMetric(t, u, up);
            RunUnits(t, [u] + rest, up) == if p.outcome.Raised? then p else RunUnits(p.tables, rest, up)
  {
    assert ([u] + rest)[0] == u && ([u] + rest)[1..] == rest;
  }

  /** The innermost loop of `run_ingestion`: the metrics of one region and
      resolution, in `metric_filters` order, skipping empty filter ids. */
  method IngestConfiguredMetrics(db: Database, cfg: Config, up: Upstream, ri: nat, si: nat) returns (o: Outcome)
    requires ri < |Regions| && si < |Resolutions|
    modifies db
    ensures Progress(o, db.State()) == RunUnits(old(db.State()), MetricUnits(cfg, ri, si, 0), up)
  {
    ghost var target := RunUnits(db.State(), MetricUnits(cfg, ri, si, 0), up);
    o := Done;
    var mi := 0;
    while mi < |Metrics| && o.Done?
      invariant 0 <= mi <= |Metrics|
      invariant o.Done? ==> target == RunUnits(db.State(), MetricUnits(cfg, ri, si, mi), up)
      invariant o.Raised? ==> target == Progress(o, db.State())
    {
      var fid := FilterFor(cfg, mi);
      if fid != "" {
        var u := Unit(Regions[ri], Metrics[mi], fid, Resolutions[si]);
        assert MetricUnits(cfg, ri, si, mi) == [u] + MetricUnits(cfg, ri, si, mi + 1);
        RunUnitsCons(db.State(), u, MetricUnits(cfg, ri, si, mi + 1), up);
        o := IngestSmardMetric(db, u, up);
      } else {
        assert MetricUnits(cfg, ri, si, mi) == MetricUnits(cfg, ri, si, mi + 1);
      }
      mi := mi + 1;
    }
  }

  /** One resolution of a region, run from `t0` to `t1` with outcome `o`,
      either ends the region's run with that raise or leaves the rest of
      the region's resolutions to run from `t1`. */
  lemma ResolutionAdvance(t0: Tables, t1: Tables, o: Outcome, cfg: Config, ri: nat, si: nat, up: Upstream)
    requires ri < |Regions| && si < |Resolutions|
    requires Progress(o, t1) == RunUnits(t0, MetricUnits(cfg, ri, si, 0), up)
    ensures o.Raised? ==> RunUnits(t0, ResolutionUnits(cfg, ri, si), up) == Progress(o, t1)
    ensures !o.Raised? ==> RunUnits(t0, ResolutionUnits(cfg, ri, si), up) == RunUnits(t1, ResolutionUnits(cfg, ri, si + 1), up)
  {
    RunUnitsConcat(t0, MetricUnits(cfg, ri, si, 0), ResolutionUnits(cfg, ri, si + 1), up);
  }

  /** The middle loop of `run_ingestion` for one region: every resolution,
      stopping at the first raise. */
  method IngestRegion(db: Database, cfg: Config, up: Upstream, ri: nat) returns (o: Outcome)
    requires ri < |Regions|
    modifies db
    ensures Progress(o, db.State()) == RunUnits(old(db.State()), ResolutionUnits(cfg, ri, 0), up)
  {
    ghost var target := RunUnits(db.State(), ResolutionUnits(cfg, ri, 0), up);
    o := Done;
    var si := 0;
    while si < |Resolutions| && o.Done?
      invariant 0 <= si <= |Resolutions|
      invariant o.Done? ==> target == RunUnits(db.State(), ResolutionUnits(cfg, ri, si), up)
      invariant o.Raised? ==> target == Progress(o, db.State())
    {
      ghost var before := db.State();
      o := IngestConfiguredMetrics(db, cfg, up, ri, si);
      ResolutionAdvance(before, db.State(), o, cfg, ri, si, up);
      si := si + 1;
    }
  }

  /** One region, run from `t0` to `t1` with outcome `o`, either ends the
      market run with that raise or leaves the later regions to run from
      `t1`. */
  lemma RegionAdvance(t0: Tables, t1: Tables, o: Outcome, cfg: Config, ri: nat, up: Upstream)
    requires ri < |Regions|
    requires Progress(o, t1) == RunUnits(t0, ResolutionUnits(cfg, ri, 0), up)
    ensures o.Raised? ==> RunUnits(t0, RegionUnits(cfg, ri), up) == Progress(o, t1)
    ensures !o.Raised? ==> RunUnits(t0, RegionUnits(cfg, ri), up) == RunUnits(t1, RegionUnits(cfg, ri + 1), up)
  {
    RunUnitsConcat(t0, ResolutionUnits(cfg, ri, 0), RegionUnits(cfg, ri + 1), up);
  }

  /** `run_ingestion`: regions, then resolutions, then metrics, then one
      weather refresh. The first raise ends the run. */
  method RunIngestionPass(db: Database, cfg: Config, up: Upstream) returns (o: Outcome)
    modifies db
    ensures Progress(o, db.State()) == RunIngestion(old(db.State()), cfg, up)
  {
    ghost var target := RunUnits(db.State(), Units(cfg), up);
    o := Done;
    var ri := 0;
    while ri < |Regions| && o.Done?
      invariant 0 <= ri <= |Regions|
      invariant o.Done? ==> target == RunUnits(db.State(), RegionUnits(cfg, ri), up)
      invariant o.Raised? ==> target == Progress(o, db.State())
    {
      ghost var before := db.State();
      o := IngestRegion(db, cfg, up, ri);
      RegionAdvance(before, db.State(), o, cfg, ri, up);
      ri := ri + 1;
    }
    if o.Done? {
      o := IngestWeather(db, cfg.site, up);
    }
  }
}
