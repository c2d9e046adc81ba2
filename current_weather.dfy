/** The current-weather assembler: a direct query by name, a geocoding
    fallback, unit symbols, the derived fields and the air-quality merge. */
module CurrentWeather {
  import opened Upstream
  import opened AirQuality

  /** The report handed to the renderers. `air` is `None` when the
      air-quality lookup failed: the report then has no AQI fields. */
  datatype Report = Report(
    temperature: real,
    tempUnit: string,
    feelsLike: real,
    condition: string,
    humidity: int,
    windSpeed: real,
    windUnit: string,
    windDirection: int,
    clouds: int,
    visibility: real,
    pressure: int,
    sunrise: string,
    sunset: string,
    city: string,
    country: string,
    lat: real,
    lon: real,
    air: Option<AirQuality>)

  const Imperial: string := "imperial"
  const NoTime: string := "--:--"

  /** The temperature symbol: Fahrenheit exactly for the imperial system;
      any other unit text (including an unsupported one) gives Celsius. */
  function TempUnit(units: string): (r: string)
    ensures r == "°F" <==> units == Imperial
    ensures r == "°F" || r == "°C"
  {
    if units == Imperial then "°F" else "°C"
  }

  /** The wind-speed symbol, chosen by the same rule as the temperature's. */
  function SpeedUnit(units: string): (r: string)
    ensures r == "mph" <==> units == Imperial
    ensures r == "mph" || r == "m/s"
  {
    if units == Imperial then "mph" else "m/s"
  }

  /** Wind speed as reported: the upstream value times 2.237 for imperial. */
  function ConvertWind(speed: real, units: string): real {
    if units == Imperial then speed * 2.237 else speed
  }

  /** A sunrise or sunset time: "--:--" for an absent or zero timestamp,
      otherwise the local clock text (`None` if formatting raises). */
  function ClockText(ts: Option<int>, lt: LocalTime): Option<string> {
    if ts.None? || ts.value == 0 then Some(NoTime) else lt.clock(ts.value)
  }

  /** The place a direct reply describes. */
  function PlaceOf(d: WeatherPayload): Coordinates {
    Coordinates(d.lat, d.lon, d.name, d.country)
  }

  /** The report built from a 200 payload for `place`, before the air-quality
      fields are merged in. It fails only when a non-zero timestamp cannot be
      formatted. */
  function BuildReport(d: WeatherPayload, units: string, place: Coordinates, lt: LocalTime): (r: Option<Report>)
    ensures r.None? <==> ClockText(d.sunrise, lt).None? || ClockText(d.sunset, lt).None?
    ensures r.Some? ==> r.value.tempUnit == TempUnit(units) && r.value.windUnit == SpeedUnit(units)
    ensures r.Some? ==> r.value.windSpeed == ConvertWind(d.windSpeed.GetOr(0.0), units)
    ensures r.Some? ==> r.value.visibility == d.visibility.GetOr(0) as real / 1000.0
    ensures r.Some? && (d.sunrise.None? || d.sunrise == Some(0)) ==> r.value.sunrise == NoTime
    ensures r.Some? && (d.sunset.None? || d.sunset == Some(0)) ==> r.value.sunset == NoTime
    ensures r.Some? ==> r.value.city == place.name && r.value.country == place.country
    ensures r.Some? ==> r.value.lat == place.lat && r.value.lon == place.lon
    ensures r.Some? ==> r.value.sunrise == ClockText(d.sunrise, lt).value && r.value.sunset == ClockText(d.sunset, lt).value
    ensures r.Some? && d.sunrise.Some? && d.sunrise.value != 0 ==> lt.clock(d.sunrise.value) == Some(r.value.sunrise)
    ensures r.Some? && d.sunset.Some? && d.sunset.value != 0 ==> lt.clock(d.sunset.value) == Some(r.value.sunset)
    ensures r.Some? ==> r.value.temperature == d.temp && r.value.humidity == d.humidity
    ensures r.Some? ==> r.value.feelsLike == d.feelsLike && r.value.condition == d.description
    ensures r.Some? ==> r.value.windDirection == d.windDeg.GetOr(0) && r.value.clouds == d.clouds.GetOr(0)
    ensures r.Some? ==> r.value.pressure == d.pressure.GetOr(0)
    ensures r.Some? ==> r.value.air.None?
  {
    var sunrise := ClockText(d.sunrise, lt);
    var sunset := ClockText(d.sunset, lt);
    if sunrise.None? || sunset.None? then None
    else
      Some(Report(
        d.temp, TempUnit(units), d.feelsLike, d.description, d.humidity,
        ConvertWind(d.windSpeed.GetOr(0.0), units), SpeedUnit(units),
        d.windDeg.GetOr(0), d.clouds.GetOr(0), d.visibility.GetOr(0) as real / 1000.0,
        d.pressure.GetOr(0), sunrise.value, sunset.value,
        place.name, place.country, place.lat, place.lon, None))
  }

  /** The payload get_weather_data ends up processing, with the place it
      reports, and the weather and geocoding requests made to obtain it. */
  function FetchPayload(up: Upstream, city: string, units: string): (t: Traced<Option<(WeatherPayload, Coordinates)>>)
    ensures |t.calls| >= 1 && t.calls[0] == WeatherByName(city, units)
    ensures Geocode(city, ResolveLimit) in t.calls <==> up.weatherByName(city, units).NonOk?
    ensures up.weatherByName(city, units).Ok? ==>
      && t.value == Some((up.weatherByName(city, units).body, PlaceOf(up.weatherByName(city, units).body)))
      && t.calls == [WeatherByName(city, units)]
    ensures up.weatherByName(city, units).Raised? ==> t.value.None? && |t.calls| == 1
    ensures up.weatherByName(city, units).NonOk? && CoordinatesFrom(up.geocode(city, ResolveLimit)).None? ==>
      t.value.None? && |t.calls| == 2
    ensures up.weatherByName(city, units).NonOk? && CoordinatesFrom(up.geocode(city, ResolveLimit)).Some? ==>
      var co := CoordinatesFrom(up.geocode(city, ResolveLimit)).value;
      && t.calls == [WeatherByName(city, units), Geocode(city, ResolveLimit), WeatherByCoords(co.lat, co.lon, units)]
      && (t.value.Some? <==> up.weatherByCoords(co.lat, co.lon, units).Ok?)
    ensures t.value.Some? && up.weatherByName(city, units).NonOk? ==>
      var co := CoordinatesFrom(up.geocode(city, ResolveLimit));
      co.Some? && t.value.value.1 == co.value &&
      up.weatherByCoords(co.value.lat, co.value.lon, units) == Ok(t.value.value.0)
  {
    var direct := WeatherByName(city, units);
    match up.weatherByName(city, units)
    case Ok(d) => Traced(Some((d, PlaceOf(d))), [direct])
    case Raised(_) => Traced(None, [direct])
    case NonOk =>
      var geo := Geocode(city, ResolveLimit);
      var co := CoordinatesFrom(up.geocode(city, ResolveLimit));
      if co.None? then Traced(None, [direct, geo])
      else
        var byCoords := WeatherByCoords(co.value.lat, co.value.lon, units);
        match up.weatherByCoords(co.value.lat, co.value.lon, units)
        case Ok(d) => Traced(Some((d, co.value)), [direct, geo, byCoords])
        case _ => Traced(None, [direct, geo, byCoords])
  }

  /** get_weather_data. */
  function GetWeatherData(up: Upstream, lt: LocalTime, city: string, units: string): (t: Traced<Option<Report>>)
    ensures |t.calls| >= 1 && t.calls[0] == WeatherByName(city, units)
    ensures Geocode(city, ResolveLimit) in t.calls <==> up.weatherByName(city, units).NonOk?
    ensures FetchPayload(up, city, units).value.None? ==> t == Traced(None, FetchPayload(up, city, units).calls)
    ensures FetchPayload(up, city, units).value.Some? ==>
      var (d, place) := FetchPayload(up, city, units).value.value;
      && t.calls == FetchPayload(up, city, units).calls + [AirPollution(place.lat, place.lon)]
      && (t.value.Some? <==> BuildReport(d, units, place, lt).Some?)
    ensures t.value.Some? ==> FetchPayload(up, city, units).value.Some?
    ensures t.value.Some? ==>
      var (d, place) := FetchPayload(up, city, units).value.value;
      && BuildReport(d, units, place, lt) == Some(t.value.value.(air := None))
      && t.value.value.air == AirQualityFrom(up.airPollution(place.lat, place.lon))
  {
    var fetched := FetchPayload(up, city, units);
    if fetched.value.None? then Traced(None, fetched.calls)
    else
      var (d, place) := fetched.value.value;
      var airQuality := AirQualityFrom(up.airPollution(place.lat, place.lon));
      var calls := fetched.calls + [AirPollution(place.lat, place.lon)];
      var result := BuildReport(d, units, place, lt);
      if result.None? then Traced(None, calls)
      else if airQuality.Some? then Traced(Some(result.value.(air := airQuality)), calls)
      else Traced(result, calls)
  }

  /** A direct hit: the air quality is requested at the reported place, and
      there is a report exactly when its times can be formatted. */
  lemma DirectHitReports(up: Upstream, lt: LocalTime, city: string, units: string)
    requires up.weatherByName(city, units).Ok?
    ensures var d := up.weatherByName(city, units).body;
            var t := GetWeatherData(up, lt, city, units);
      && t.calls == [WeatherByName(city, units), AirPollution(d.lat, d.lon)]
      && (t.value.Some? <==> BuildReport(d, units, PlaceOf(d), lt).Some?)
      && (t.value.Some? ==> t.value.value.city == d.name && t.value.value.country == d.country)
  {
  }

  /** The geocoding fallback once a place is found: the weather is requested
      at its coordinates, the air quality too when that succeeds, and the
      report names the geocoded place. */
  lemma FallbackReports(up: Upstream, lt: LocalTime, city: string, units: string)
    requires up.weatherByName(city, units).NonOk?
    requires CoordinatesFrom(up.geocode(city, ResolveLimit)).Some?
    ensures var co := CoordinatesFrom(up.geocode(city, ResolveLimit)).value;
            var reply := up.weatherByCoords(co.lat, co.lon, units);
            var t := GetWeatherData(up, lt, city, units);
      && t.calls == [WeatherByName(city, units), Geocode(city, ResolveLimit), WeatherByCoords(co.lat, co.lon, units)]
                    + (if reply.Ok? then [AirPollution(co.lat, co.lon)] else [])
      && (t.value.Some? <==> reply.Ok? && BuildReport(reply.body, units, co, lt).Some?)
      && (t.value.Some? ==> t.value.value.city == co.name && t.value.value.country == co.country)
  {
  }

  /** The temperature and wind symbols of a report always belong to the unit
      system that was asked for, so they are never mixed. */
  lemma UnitsNeverMixed(up: Upstream, lt: LocalTime, city: string, units: string)
    ensures var t := GetWeatherData(up, lt, city, units);
      t.value.Some? ==>
        && (t.value.value.tempUnit == "°F" <==> units == Imperial)
        && (t.value.value.tempUnit == "°F" <==> t.value.value.windUnit == "mph")
  {
  }

  /** If the direct query fails with a non-200 status and geocoding finds
      nothing, the result is absent and no further request is made. */
  lemma BothLookupsFail(up: Upstream, lt: LocalTime, city: string, units: string)
    requires up.weatherByName(city, units).NonOk?
    requires CoordinatesFrom(up.geocode(city, ResolveLimit)).None?
    ensures GetWeatherData(up, lt, city, units)
         == Traced(None, [WeatherByName(city, units), Geocode(city, ResolveLimit)])
  {
  }

  /** The air-quality reply never decides whether there is a report: changing
      it changes at most the AQI fields, never the rest of the report or the
      requests made. */
  lemma AirQualityOnlyAddsFields(up: Upstream, lt: LocalTime, city: string, units: string,
                                 air: (real, real) -> Reply<int>)
    ensures var a := GetWeatherData(up, lt, city, units);
            var b := GetWeatherData(up.(airPollution := air), lt, city, units);
      && a.calls == b.calls
      && (a.value.Some? <==> b.value.Some?)
      && (a.value.Some? ==> a.value.value.(air := None) == b.value.value.(air := None))
  {
    var f := FetchPayload(up, city, units);
    var g := FetchPayload(up.(airPollution := air), city, units);
    assert f == g;
  }
}
