/** The two stored tables and the database object that holds them.

    `timeseries` rows carry (region, metric, resolution, ts, value); the lookup
    index on (region, metric, resolution, ts) is NOT unique, so nothing in the
    store itself stops two rows for the same key and instant. `weather_hourly`
    rows carry a timestamp and three independently nullable readings. Both
    tables number their rows with an autoincrementing primary key. */
module Models {
  import opened Base

  /** Instants are integer seconds since the Unix epoch, in UTC. */
  type Timestamp = int

  datatype TimeSeriesPoint = TimeSeriesPoint(
    id: nat,
    region: string,
    metric: string,
    resolution: string,
    ts: Timestamp,
    value: real)

  datatype WeatherPoint = WeatherPoint(
    id: nat,
    ts: Timestamp,
    temperature2m: Option<real>,
    windspeed10m: Option<real>,
    precipitation: Option<real>)

  /** A snapshot of the whole database: both tables and the next primary key
      each table will hand out. */
  datatype Tables = Tables(
    timeseries: seq<TimeSeriesPoint>,
    weatherHourly: seq<WeatherPoint>,
    nextSeriesId: nat,
    nextWeatherId: nat)

  function SeriesId(p: TimeSeriesPoint): int { p.id }

  function WeatherId(w: WeatherPoint): int { w.id }

  /** Every primary key is distinct and below the table's next key. */
  ghost predicate KeysValid(t: Tables)
  {
    && (forall i :: 0 <= i < |t.timeseries| ==> t.timeseries[i].id < t.nextSeriesId)
    && DistinctBy(t.timeseries, SeriesId)
    && (forall i :: 0 <= i < |t.weatherHourly| ==> t.weatherHourly[i].id < t.nextWeatherId)
    && DistinctBy(t.weatherHourly, WeatherId)
  }

  /** The database the ingestion writes and the API reads. */
  class Database {
    var timeseries: seq<TimeSeriesPoint>
    var weatherHourly: seq<WeatherPoint>
    var nextSeriesId: nat
    var nextWeatherId: nat

    function State(): Tables
      reads this
    {
      Tables(timeseries, weatherHourly, nextSeriesId, nextWeatherId)
    }

    /** A freshly created schema: both tables empty, keys start at 1. */
    constructor ()
      ensures State() == Tables([], [], 1, 1)
      ensures KeysValid(State())
    {
      timeseries := [];
      weatherHourly := [];
      nextSeriesId := 1;
      nextWeatherId := 1;
    }
  }
}
