/** The boundary to the two upstream providers. The HTTP clients themselves
    (`smard_client.py`, `weather_client.py`) are opaque: the model receives
    them as functions that either yield a decoded JSON document or fail, the
    way `requests.get(...).raise_for_status()` / `.json()` either return or
    raise. The documents are reduced to the shapes the ingestion inspects. */
module Clients {
  import opened Base
  import opened Models

  /** Why an ingestion step raised: the fetch itself failed (network error,
      HTTP error status), or the decoded document had a shape the code
      cannot handle (an `AttributeError`/`ValueError` inside pandas). */
  datatype Failure = FetchFailed | BadPayload

  /** A value found under a key of a JSON object: a list, a nested object
      (empty or not), or some other JSON value (null, a number, a string, a
      boolean) of which only its Python truthiness matters. */
  datatype Field<T> = ListOf(items: seq<T>) | Object(nonEmpty: bool) | Scalar(truthy: bool)

  /** A decoded JSON document: an object, a bare array, or anything else. */
  datatype Payload<T> =
    | Dict(fields: map<string, Field<T>>)
    | BareList(items: seq<T>)
    | NotContainer

  /** One SMARD data point `[epoch_ms, value]`; either half may be null. */
  datatype Point = Point(tsMs: Option<int>, value: Option<real>)

  /** The `hourly` object of an Open-Meteo answer: parallel arrays indexed by
      hour; each key may be missing, each reading may be null. The `time`
      entries are given as UTC instants (the zone localisation is not part
      of this model). */
  datatype Hourly = Hourly(
    time: Option<seq<Timestamp>>,
    temperature2m: Option<seq<Option<real>>>,
    windspeed10m: Option<seq<Option<real>>>,
    precipitation: Option<seq<Option<real>>>)

  /** The `hourly` entry of an Open-Meteo answer: missing, present but not
      an object (null, a list, a number, ...), or an object. */
  datatype HourlyField = HourlyMissing | HourlyNotObject | HourlyObject(hours: Hourly)

  /** An Open-Meteo answer. */
  datatype WeatherPayload = WeatherPayload(hourly: HourlyField)

  /** Where and in which zone to ask for weather. */
  datatype WeatherSite = WeatherSite(lat: real, lon: real, timezone: string)

  /** The three fetches: SMARD chunk index by (filter id, region, resolution),
      SMARD chunk by (filter id, region, resolution, chunk timestamp), and the
      Open-Meteo hourly forecast for a site. */
  datatype Upstream = Upstream(
    fetchIndex: (string, string, string) -> Result<Payload<int>, Failure>,
    fetchSeries: (string, string, string, int) -> Result<Payload<Point>, Failure>,
    fetchWeather: WeatherSite -> Result<WeatherPayload, Failure>)
}
