# Weather MCP server: a Dafny model of its decision logic

The server exposes the OpenWeatherMap API as three tools (`get_weather`,
`get_forecast`, `search_cities`) and a small set of `weather://` resources.
Almost all of it is HTTP glue. This project models the part that decides
something, with every upstream reply passed in as a value:

- **Upstream values** (`upstream.dfy`, module `Upstream`). A reply is `Raised(error)`
  (network error, or a body that cannot be decoded), `NonOk` (a status other than
  200) or `Ok(body)`. An `Upstream` record of total functions gives the reply to
  each request, and `LocalTime` stands for the clock and date formatting. Every
  assembler returns a `Traced` value, which also lists the `Call`s it made, so
  that "no request is made" can be stated and proved. The geocoding lookup
  `get_coordinates_for_city` is `CoordinatesFrom`.
- **Air quality** (`air_quality.dfy`). The 1..5 index maps to a label and a coloured
  marker. Any other index maps to "Unknown" / "⚪".
- **Current weather** (`current_weather.dfy`). The direct query comes first. The
  geocoding fallback runs only on a non-200 reply. Then come the unit symbols, the
  wind conversion, the "--:--" rule for a missing or zero sunrise/sunset, and the
  merge of the air-quality fields.
- **Forecast** (`forecast.dfy`). This models the day-picking loop of
  `get_forecast_data`. `DailyPicks` is a recursive specification of the loop, and
  the lemmas about it state the promised properties. `SelectDailyForecasts` is the
  loop itself, proved to return `DailyEntries`.
- **Text** (`text.dfy`). This covers `lower`, `title`, `replace` and `startswith` as
  the resource URIs use them.
- **Resources** (`resources.dfy`). These are the listing loop, reading a URI back,
  and the round trip for every popular city.
- **Dispatcher** (`dispatcher.dfy`). This covers the argument checks, the three
  tools, the search listing loop with its display names, the short failure notices, and
  the text reply for an unknown tool.

Two behaviours of the code are worth stating:

- A search does not cap its results at `limit`. The value is only forwarded to the
  geocoder, and every hit it returns is listed.
- An unknown resource URI is a fault in the source. Here it is the result value
  `UnknownResource`.

## Model

| member | source | states |
|---|---|---|
| `Upstream.CoordinatesFrom` | mcp_weather_server.py:45-68 | A place exists exactly when the reply is a 200 with at least one hit and the first hit has both coordinates. The place is that first hit, with the country defaulting to "". |
| `AirQuality.AqiLabel` | mcp_weather_server.py:85-90 | The label is "Unknown" exactly when the index is outside 1..5. |
| `AirQuality.AqiMarker` | mcp_weather_server.py:86-91 | The marker is "⚪" exactly when the index is outside 1..5. |
| `AirQuality.KnownLabels` | mcp_weather_server.py:84-86 | Indexes 1..5 map to Good, Fair, Moderate, Poor, Very Poor and to 🟢 🟡 🟠 🔴 🟣. |
| `AirQuality.AirQualityFrom` | mcp_weather_server.py:70-95 | There is a reading exactly when the reply is a decoded 200. Its label and marker come from the table, and every failure gives no reading. |
| `CurrentWeather.TempUnit` | mcp_weather_server.py:110 | The symbol is "°F" exactly when units is "imperial", and "°C" otherwise. |
| `CurrentWeather.SpeedUnit` | mcp_weather_server.py:111 | The symbol is "mph" exactly when units is "imperial", and "m/s" otherwise. |
| `CurrentWeather.BuildReport` | mcp_weather_server.py:116-147 | This builds the report from a 200 payload. Temperature, feels-like, condition and humidity are copied. Wind direction, clouds and pressure default to 0. The unit symbols follow the request. Wind is multiplied by 2.237 for imperial, and visibility is divided by 1000. An absent or zero timestamp gives "--:--", and any other timestamp gives its clock text. City, country and coordinates come from the given place. It fails exactly when a non-zero timestamp cannot be formatted. |
| `CurrentWeather.FetchPayload` | mcp_weather_server.py:100-172 | The direct query is always the first request. A 200 reply gives its payload and place after that one request. Geocoding happens exactly when the direct query gets a non-200 reply. A raised direct query makes no fallback. When geocoding fails, nothing is returned after two requests. When it succeeds, the weather is requested at the geocoded coordinates. A payload is then returned exactly when that request gets a 200, and it is the reply for the geocoded place. |
| `CurrentWeather.GetWeatherData` | mcp_weather_server.py:97-220 | The direct query goes first, and geocoding happens exactly on a non-200 reply. Without a payload there is no report and no further request. With a payload, the air quality is requested at its place. There is a report exactly when the payload's report can be built. A report is that built report, and its air-quality fields are the lookup at the reported coordinates. |
| `CurrentWeather.DirectHitReports` | mcp_weather_server.py:108-157 | After a 200 direct reply, exactly the direct and air-quality requests are made. There is a report exactly when the payload's times can be formatted, and it names the payload's city and country. |
| `CurrentWeather.FallbackReports` | mcp_weather_server.py:158-216 | After a non-200 direct reply and a successful geocoding, the weather is requested at the geocoded coordinates. The air quality is requested there too when that reply is a 200. There is a report exactly when that reply is a 200 and its times can be formatted, and it names the geocoded place. |
| `CurrentWeather.UnitsNeverMixed` | mcp_weather_server.py:108-111 | In every report, "°F" appears exactly for imperial units and exactly together with "mph". |
| `CurrentWeather.BothLookupsFail` | mcp_weather_server.py:158-217 | A non-200 direct reply followed by a failed geocoding gives no report. Exactly those two requests are made. |
| `CurrentWeather.AirQualityOnlyAddsFields` | mcp_weather_server.py:149-155 | Changing the air-quality reply changes only the AQI fields. Whether there is a report, the rest of the report, and the requests made all stay the same. |
| `Forecast.PicksOrdered` | mcp_weather_server.py:244-264 | There are at most `room` picks. They are strictly increasing indexes into the samples, so they form a subsequence in upstream order. |
| `Forecast.PicksFreshDates` | mcp_weather_server.py:242-249 | Every pick is a 12:00 or 15:00 sample whose date was not seen before, and no two picks share a date. |
| `Forecast.PicksFirstOfDate` | mcp_weather_server.py:244-261 | Each pick is the first midday sample of its date. |
| `Forecast.PicksComplete` | mcp_weather_server.py:244-264 | A midday sample that is not picked has an already-seen date, or a date picked earlier, or comes after the picks filled the room. |
| `Forecast.DailyPicksSpec` | mcp_weather_server.py:241-264 | For the whole list, the picks are: at most 5, in order, each at midday, each with a distinct date, each the first of its date. Every qualifying sample that is left out repeats a reported date or comes after the fifth day. |
| `Forecast.DailyEntries` | mcp_weather_server.py:250-261 | A forecast has at most 5 entries. |
| `Forecast.NoEntriesWhenUnformattable` | mcp_weather_server.py:251-252 | If the date of one pick cannot be parsed, the forecast is absent. |
| `Forecast.SelectDailyForecasts` | mcp_weather_server.py:241-264 | The loop, with its seen-date set and early break, returns exactly `DailyEntries` of the samples. |
| `Forecast.ForecastFor` | mcp_weather_server.py:222-276 | Geocoding is always the first request. A failed geocoding ends there with no forecast. A successful one is followed by exactly one forecast request at its coordinates. There is a forecast exactly when geocoding succeeds, the forecast reply is a 200, and every picked date can be formatted. A forecast carries the geocoded name and country, and its entries are the picked days (at most 5). |
| `Forecast.GetForecastData` | mcp_weather_server.py:222-276 | The assembler returns what `ForecastFor` specifies, requests included. |
| `Text.TitleOfLower` | mcp_weather_server.py:320 | Title-casing gives the same result whatever case the input was in. |
| `Text.ReplaceCharBack` | mcp_weather_server.py:287 | Replacing a by b and then b by a restores any string that had no b in it. |
| `Text.RemoveAllAbsent` | mcp_weather_server.py:310 | Deleting a pattern changes nothing when one of its characters does not occur in the string. |
| `Text.RemoveAllAfterPrefix` | mcp_weather_server.py:309-310 | Deleting the prefix from a URI that starts with it first removes that leading occurrence. |
| `Resources.ListResources` | mcp_weather_server.py:278-304 | The listing holds 8 resources: each popular city in order, with URI `weather://` plus its lower-cased, hyphenated name, and then the search resource. |
| `Resources.WeatherResource` | mcp_weather_server.py:322-327 | Reading a city resource gives its metric weather report when there is one, and otherwise an error naming the city. It makes the same requests as the lookup. |
| `Resources.ReadResource` | mcp_weather_server.py:306-329 | A URI without the `weather://` prefix is rejected and makes no request. A URI reaches the static search payload (with no request) exactly when its slug is `search`. Every other URI reads the weather resource of its slug's city. |
| `Resources.SlugChars` | mcp_weather_server.py:287 | The slug of a plain city name has the same length and holds only letters and hyphens. |
| `Resources.SlugRoundTrip` | mcp_weather_server.py:287-320 | Turning a slug back into a city gives the plain, title-cased city name the slug was made from. |
| `Resources.SearchSlugCity` | mcp_weather_server.py:312-320 | "Search" is the only plain city name whose slug collides with the search resource. |
| `Resources.ReadListedCity` | mcp_weather_server.py:284-329 | The URI of any plain city name other than "Search" reads back as the weather resource of that same city. |
| `Resources.PopularCitiesArePlain` | mcp_weather_server.py:40 | Every popular city is a plain, title-cased name other than "Search". |
| `Resources.ListedResourcesReadBack` | mcp_weather_server.py:281-329 | Every listed city URI reads back as the weather resource of the city it was listed for. The search URI gives the static payload with no request. |
| `Resources.ListedUrisDistinct` | mcp_weather_server.py:284-302 | The eight listed URIs are pairwise distinct. |
| `Dispatcher.Notice` | mcp_weather_server.py:406-502 | Every failure answer is a text that starts with "❌ " or "Error: ". An unknown tool gives "❌ Unknown tool: " followed by the name. Only the summaries have no such text. |
| `Dispatcher.DisplayName` | mcp_weather_server.py:483-487 | The display name joins the components with ", ": the name, the state only when a country is also given, and the country. It equals the bare name exactly when the country is empty, and it always starts with the name. |
| `Dispatcher.SearchLines` | mcp_weather_server.py:474-490 | There is one line per hit, in geocoder order, numbered from 1. Each line has its display name, and coordinates defaulting to 0. |
| `Dispatcher.HandleCallTool` | mcp_weather_server.py:398-502 | A missing or empty `city`/`query` gives an error and makes no request. An unknown name gives `UnknownTool` and makes no request, and only names outside the advertised three do. Otherwise the matching assembler runs with units defaulting to metric and the search limit to 5. The search outcome follows the reply: raised, non-200, no hits, or the numbered lines. |

## Left out

- HTTP requests, JSON decoding, timeouts, the API key and the diagnostic `print`s are left out. Each request is a `Call`, and its reply is a value given by `Upstream`.
- Where a KeyError strikes inside a 200 body is not modelled. An undecodable body is `Raised` at decoding, before any later request. In the source, a payload missing `sys` would still make the air-quality request first.
- The model uses exact `real` arithmetic, not IEEE floating point. This covers the wind factor 2.237 and visibility ÷ 1000, but not their rounding. The `int()` truncation and the `:.1f` / `:.2f` formatting in the summaries are also left out.
- `datetime.fromtimestamp(...).strftime('%H:%M')` and `strptime`/`strftime('%a, %b %d')` are the parameters `LocalTime.clock` and `LocalTime.dayLabel`. They are not interpreted, and only the zero/absent → "--:--" branch is modelled.
- The multi-line weather, forecast and search summaries are not modelled as exact text, and neither are the emoji layout and the `.title()` of condition text. `ToolText` records the data each summary shows.
- `lower()` and `title()` are modelled on ASCII letters only. Unicode case mapping is not modelled.
- Tool argument values are text (`map<string, string>`). Non-string JSON arguments, whose truthiness differs, are not modelled. `limit` is forwarded as the text sent upstream.
- A geocoding hit always has a `name`. A JSON `null` country or state counts as "". Search results that are not a list are not modelled.
- `json.dumps` of resource results is not modelled. The result values are returned instead.
- `handle_list_tools` is not modelled. It is a static schema listing; only the tool names it shares with the search payload are used.
- The MCP `Server` decorators, the stdio transport, `asyncio`, `main`, environment loading and `run_mcp_server.py` are left out, because they are startup and transport code.
