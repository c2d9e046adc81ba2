/** The tool dispatcher: argument checks, the three tools, the search
    listing and its display names, and the reply for an unknown tool. */
module Dispatcher {
  import opened Upstream
  import Text
  import CurrentWeather
  import Forecast
  import Resources

  const GetWeather: string := "get_weather"
  const GetForecast: string := "get_forecast"
  const SearchCities: string := "search_cities"

  /** The default `limit` of a city search, as sent upstream. */
  const DefaultLimit: string := "5"

  /** Tool arguments by name, each value as text. */
  type Arguments = map<string, string>

  /** `arguments.get(key)` is truthy: present and not empty. */
  predicate Given(args: Arguments, key: string) {
    key in args && args[key] != ""
  }

  /** `arguments.get(key, default)`. */
  function ArgOr(args: Arguments, key: string, default: string): string {
    if key in args then args[key] else default
  }

  /** One numbered line of a search listing. */
  datatype SearchLine = SearchLine(position: nat, displayName: string, lat: real, lon: real)

  /** The kinds of text a tool call answers with. The multi-line summaries
      carry the data they display; their exact layout is not modelled. */
  datatype ToolText =
    | CityRequired
    | QueryRequired
    | WeatherSummary(report: CurrentWeather.Report)
    | WeatherNotFound(city: string)
    | ForecastSummary(forecast: Forecast.ForecastReport)
    | ForecastNotFound(city: string)
    | CitiesFound(query: string, lines: seq<SearchLine>)
    | NoCitiesFound(query: string)
    | SearchFailed
    | SearchError(detail: string)
    | UnknownTool(name: string)
  {
    /** The answers that report a failure to the caller. */
    predicate IsFailure() {
      CityRequired? || QueryRequired? || WeatherNotFound? || ForecastNotFound? ||
      SearchFailed? || SearchError? || UnknownTool?
    }

    /** The answers that are multi-line summaries of data. */
    predicate IsSummary() {
      WeatherSummary? || ForecastSummary? || CitiesFound?
    }
  }

  /** The prefixes of the failure notices. */
  const FailureMarker: string := "❌ "
  const ErrorPrefix: string := "Error: "

  /** The one-line text of every answer that is not a summary. */
  function Notice(o: ToolText): (r: Option<string>)
    ensures r.None? <==> o.IsSummary()
    ensures o.IsFailure() ==> r.Some? && (Text.StartsWith(r.value, FailureMarker) || Text.StartsWith(r.value, ErrorPrefix))
    ensures o.UnknownTool? ==> r == Some(FailureMarker + ("Unknown tool: " + o.name))
  {
    match o
    case CityRequired =>
      Text.StartsWithConcat(ErrorPrefix, "City name is required");
      Some(ErrorPrefix + "City name is required")
    case QueryRequired =>
      Text.StartsWithConcat(ErrorPrefix, "Search query is required");
      Some(ErrorPrefix + "Search query is required")
    case WeatherNotFound(city) =>
      var rest := "Could not find weather data for '" + city + "'. Please check the city name and try again.";
      Text.StartsWithConcat(FailureMarker, rest);
      Some(FailureMarker + rest)
    case ForecastNotFound(city) =>
      var rest := "Could not find forecast data for '" + city + "'. Please check the city name and try again.";
      Text.StartsWithConcat(FailureMarker, rest);
      Some(FailureMarker + rest)
    case NoCitiesFound(query) => Some("🔍 No cities found matching '" + query + "'. Try a different search term.")
    case SearchFailed =>
      Text.StartsWithConcat(FailureMarker, "Error searching for cities. Please try again.");
      Some(FailureMarker + "Error searching for cities. Please try again.")
    case SearchError(detail) =>
      Text.StartsWithConcat(FailureMarker, "Search error: " + detail);
      Some(FailureMarker + ("Search error: " + detail))
    case UnknownTool(name) =>
      Text.StartsWithConcat(FailureMarker, "Unknown tool: " + name);
      Some(FailureMarker + ("Unknown tool: " + name))
    case _ => None
  }

  /** The search display name: "name, state, country" when both state and
      country are given, "name, country" when only the country is, and the
      bare name otherwise. */
  function DisplayName(name: string, state: string, country: string): (r: string)
    ensures r == JoinComma(Components(name, state, country))
    ensures r == name <==> country == ""
    ensures |name| <= |r| && r[..|name|] == name
  {
    if state != "" && country != "" then
      assert JoinComma([state, country]) == state + ", " + country;
      name + ", " + state + ", " + country
    else if country != "" then name + ", " + country
    else name
  }

  /** The parts shown for a search hit: the name, the state only when a
      country is also there, and the country when there is one. */
  function Components(name: string, state: string, country: string): seq<string> {
    [name] + (if state != "" && country != "" then [state] else []) + (if country != "" then [country] else [])
  }

  /** Parts joined by ", ". */
  function JoinComma(parts: seq<string>): string {
    if |parts| == 0 then ""
    else if |parts| == 1 then parts[0]
    else parts[0] + ", " + JoinComma(parts[1..])
  }

  /** The line shown for the hit at 1-based `position`. */
  function LineOf(position: nat, hit: GeoHit): SearchLine {
    SearchLine(position, DisplayName(hit.name, hit.state.GetOr(""), hit.country.GetOr("")),
               hit.lat.GetOr(0.0), hit.lon.GetOr(0.0))
  }

  /** The loop of the search tool: one line per hit, numbered from 1, in the
      order the geocoder returned them. */
  method SearchLines(hits: seq<GeoHit>) returns (lines: seq<SearchLine>)
    ensures |lines| == |hits|
    ensures forall i :: 0 <= i < |hits| ==> lines[i] == LineOf(i + 1, hits[i])
  {
    lines := [];
    for i := 0 to |hits|
      invariant |lines| == i
      invariant forall k :: 0 <= k < i ==> lines[k] == LineOf(k + 1, hits[k])
    {
      lines := lines + [LineOf(i + 1, hits[i])];
    }
  }

  /** handle_call_tool. A missing or empty required argument is answered
      before any upstream request; an unknown tool name is answered with text. */
  method HandleCallTool(up: Upstream, lt: LocalTime, name: string, args: Arguments)
    returns (out: ToolText, calls: seq<Call>)
    ensures out.UnknownTool? <==> name !in Resources.AvailableTools
    ensures out.UnknownTool? ==> out.name == name && calls == []
    ensures name == GetWeather && !Given(args, "city") ==> out == CityRequired && calls == []
    ensures name == GetWeather && Given(args, "city") ==>
      var w := CurrentWeather.GetWeatherData(up, lt, args["city"], ArgOr(args, "units", Resources.DefaultUnits));
      && calls == w.calls
      && (w.value.Some? ==> out == WeatherSummary(w.value.value))
      && (w.value.None? ==> out == WeatherNotFound(args["city"]))
    ensures name == GetForecast && !Given(args, "city") ==> out == CityRequired && calls == []
    ensures name == GetForecast && Given(args, "city") ==>
      var f := Forecast.ForecastFor(up, lt, args["city"], ArgOr(args, "units", Resources.DefaultUnits));
      && calls == f.calls
      && (f.value.Some? ==> out == ForecastSummary(f.value.value))
      && (f.value.None? ==> out == ForecastNotFound(args["city"]))
    ensures name == SearchCities && !Given(args, "query") ==> out == QueryRequired && calls == []
    ensures name == SearchCities && Given(args, "query") ==>
      var query, limit := args["query"], ArgOr(args, "limit", DefaultLimit);
      var reply := up.geocode(query, limit);
      && calls == [Geocode(query, limit)]
      && (reply.Raised? ==> out == SearchError(reply.error))
      && (reply.NonOk? ==> out == SearchFailed)
      && (reply.Ok? && |reply.body| == 0 ==> out == NoCitiesFound(query))
      && (reply.Ok? && |reply.body| > 0 ==>
            && out.CitiesFound? && out.query == query
            && |out.lines| == |reply.body|
            && forall i :: 0 <= i < |reply.body| ==> out.lines[i] == LineOf(i + 1, reply.body[i]))
  {
    calls := [];
    if name == GetWeather {
      if !Given(args, "city") {
        return CityRequired, calls;
      }
      var city := args["city"];
      var units := ArgOr(args, "units", Resources.DefaultUnits);
      var weather := CurrentWeather.GetWeatherData(up, lt, city, units);
      calls := weather.calls;
      if weather.value.Some? {
        out := WeatherSummary(weather.value.value);
      } else {
        out := WeatherNotFound(city);
      }
    } else if name == GetForecast {
      if !Given(args, "city") {
        return CityRequired, calls;
      }
      var city := args["city"];
      var units := ArgOr(args, "units", Resources.DefaultUnits);
      var forecast;
      forecast, calls := Forecast.GetForecastData(up, lt, city, units);
      if forecast.Some? {
        out := ForecastSummary(forecast.value);
      } else {
        out := ForecastNotFound(city);
      }
    } else if name == SearchCities {
      if !Given(args, "query") {
        return QueryRequired, calls;
      }
      var query := args["query"];
      var limit := ArgOr(args, "limit", DefaultLimit);
      calls := [Geocode(query, limit)];
      match up.geocode(query, limit)
      case Raised(e) =>
        out := SearchError(e);
      case NonOk =>
        out := SearchFailed;
      case Ok(hits) =>
        if |hits| > 0 {
          var lines := SearchLines(hits);
          out := CitiesFound(query, lines);
        } else {
          out := NoCitiesFound(query);
        }
    } else {
      out := UnknownTool(name);
    }
  }
}
