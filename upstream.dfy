/** Values exchanged with the weather service, and the geocoding lookup.

    Nothing here performs I/O: every upstream reply is a value. An `Upstream`
    gives, for each query the server can make, the reply the service returns,
    and every assembler reports the list of `Call`s it made, so that "no request
    was made" is something a contract can state. */
module Upstream {

  datatype Option<+T> = None | Some(value: T) {
    function GetOr(default: T): T {
      match this
      case Some(v) => v
      case None => default
    }
  }

  /** What an HTTP call gives back to the code that made it.
      - `Raised`: the call or the decoding of its body raised (network error,
        timeout, a body that is not JSON or lacks a field the code indexes);
      - `NonOk`: the service answered with a status other than 200;
      - `Ok`: status 200 with a decoded body. */
  datatype Reply<+T> = Raised(error: string) | NonOk | Ok(body: T)

  /** One hit of the direct-geocoding endpoint. Optional keys that the code
      reads with a default are `Option`s; `name` is always indexed directly. */
  datatype GeoHit = GeoHit(
    name: string,
    lat: Option<real>,
    lon: Option<real>,
    country: Option<string>,
    state: Option<string>)

  /** The body of a current-weather reply. Keys the code reads with `.get`
      and a default are `Option`s. */
  datatype WeatherPayload = WeatherPayload(
    name: string,
    lat: real,
    lon: real,
    temp: real,
    feelsLike: real,
    humidity: int,
    pressure: Option<int>,
    description: string,
    country: string,
    sunrise: Option<int>,
    sunset: Option<int>,
    windSpeed: Option<real>,
    windDeg: Option<int>,
    clouds: Option<int>,
    visibility: Option<int>)

  /** One 3-hour sample of the forecast reply. */
  datatype ForecastSample = ForecastSample(
    dtTxt: string,
    temp: real,
    description: string,
    humidity: int,
    windSpeed: Option<real>)

  /** A resolved place. */
  datatype Coordinates = Coordinates(lat: real, lon: real, name: string, country: string)

  /** The upstream requests the server can issue, with the parameters that
      distinguish them (the API key and the fixed timeouts are left out). */
  datatype Call =
    | WeatherByName(city: string, units: string)
    | WeatherByCoords(lat: real, lon: real, units: string)
    | Geocode(query: string, limit: string)
    | AirPollution(lat: real, lon: real)
    | ForecastByCoords(lat: real, lon: real, units: string)

  /** The reply the service gives to each request. */
  datatype Upstream = Upstream(
    weatherByName: (string, string) -> Reply<WeatherPayload>,
    weatherByCoords: (real, real, string) -> Reply<WeatherPayload>,
    geocode: (string, string) -> Reply<seq<GeoHit>>,
    airPollution: (real, real) -> Reply<int>,
    forecast: (real, real, string) -> Reply<seq<ForecastSample>>)

  /** Local-time formatting, which the model does not interpret:
      `clock(ts)` is the `%H:%M` text of a Unix timestamp and `dayLabel(d)`
      the `%a, %b %d` text of a `YYYY-MM-DD` date; `None` means the library
      call raises. */
  datatype LocalTime = LocalTime(
    clock: int -> Option<string>,
    dayLabel: string -> Option<string>)

  /** A result together with the upstream requests made to compute it. */
  datatype Traced<+T> = Traced(value: T, calls: seq<Call>)

  /** get_coordinates_for_city asks the geocoder for a single match. */
  const ResolveLimit: string := "1"

  /** get_coordinates_for_city: the first hit of a successful reply, provided
      it carries both coordinates; no place on any failure or on zero hits. */
  function CoordinatesFrom(reply: Reply<seq<GeoHit>>): (r: Option<Coordinates>)
    ensures r.Some? <==>
      reply.Ok? && |reply.body| > 0 && reply.body[0].lat.Some? && reply.body[0].lon.Some?
    ensures r.Some? ==>
      var hit := reply.body[0];
      r.value == Coordinates(hit.lat.value, hit.lon.value, hit.name, hit.country.GetOr(""))
  {
    match reply
    case Ok(hits) =>
      if |hits| > 0 then
        var hit := hits[0];
        if hit.lat.Some? && hit.lon.Some? then
          Some(Coordinates(hit.lat.value, hit.lon.value, hit.name, hit.country.GetOr("")))
        else None
      else None
    case _ => None
  }
}
