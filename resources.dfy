/** The resource catalogue: one `weather://` resource per popular city plus
    a search resource, and reading a resource back by its URI. */
module Resources {
  import opened Upstream
  import opened Text
  import CurrentWeather

  const Prefix: string := "weather://"
  const SearchSlug: string := "search"
  const MimeJson: string := "application/json"
  const DefaultUnits: string := "metric"

  const PopularCities: seq<string> := ["New York", "London", "Tokyo", "Paris", "Sydney", "Los Angeles", "Berlin"]

  /** The tools the search resource advertises. */
  const AvailableTools: seq<string> := ["get_weather", "get_forecast", "search_cities"]

  datatype Resource = Resource(uri: string, name: string, description: string, mimeType: string)

  /** The static payload of `weather://search`. */
  datatype SearchInfo = SearchInfo(description: string, availableTools: seq<string>, popularCities: seq<string>)

  const SearchPayload: SearchInfo :=
    SearchInfo("Use the get_weather or get_forecast tools to search for weather data", AvailableTools, PopularCities)

  /** What reading a resource gives: the search payload, a report, the
      error object for a city without data, or the fault for a URI that
      is not a weather resource. */
  datatype ReadResult =
    | SearchPage(info: SearchInfo)
    | WeatherJson(report: CurrentWeather.Report)
    | WeatherError(city: string)
    | UnknownResource(uri: string)

  /** The URI slug of a city: lower-cased, spaces turned into hyphens. */
  function CitySlug(city: string): string {
    ReplaceChar(Lower(city), ' ', '-')
  }

  function CityUri(city: string): string {
    Prefix + CitySlug(city)
  }

  /** The city a slug names: hyphens turned into spaces, then title-cased. */
  function CityOfSlug(slug: string): string {
    Title(ReplaceChar(slug, '-', ' '))
  }

  function CityResource(city: string): Resource {
    Resource(CityUri(city), "Weather for " + city, "Current weather conditions and forecast for " + city, MimeJson)
  }

  const SearchResource: Resource :=
    Resource(Prefix + SearchSlug, "Weather Search", "Search for weather information for any city worldwide", MimeJson)

  /** handle_list_resources: the popular cities in order, then search. */
  method ListResources() returns (resources: seq<Resource>)
    ensures |resources| == |PopularCities| + 1
    ensures forall i :: 0 <= i < |PopularCities| ==> resources[i] == CityResource(PopularCities[i])
    ensures resources[|PopularCities|] == SearchResource
  {
    resources := [];
    for i := 0 to |PopularCities|
      invariant |resources| == i
      invariant forall k :: 0 <= k < i ==> resources[k] == CityResource(PopularCities[k])
    {
      resources := resources + [CityResource(PopularCities[i])];
    }
    resources := resources + [SearchResource];
  }

  /** Reading the weather resource of `city`: its current weather in metric
      units as JSON, or an error object naming the city. */
  function WeatherResource(up: Upstream, lt: LocalTime, city: string): (t: Traced<ReadResult>)
    ensures var w := CurrentWeather.GetWeatherData(up, lt, city, DefaultUnits);
      && t.calls == w.calls
      && (w.value.Some? <==> t.value.WeatherJson?)
      && (w.value.Some? ==> t.value == WeatherJson(w.value.value))
      && (w.value.None? ==> t.value == WeatherError(city))
  {
    var w := CurrentWeather.GetWeatherData(up, lt, city, DefaultUnits);
    if w.value.Some? then Traced(WeatherJson(w.value.value), w.calls)
    else Traced(WeatherError(city), w.calls)
  }

  /** handle_read_resource. A URI without the prefix is rejected before any
      request; `weather://search` is answered without a request; any other
      slug is read back into a city whose weather resource is read. */
  function ReadResource(up: Upstream, lt: LocalTime, uri: string): (t: Traced<ReadResult>)
    ensures t.value.UnknownResource? <==> !StartsWith(uri, Prefix)
    ensures t.value.UnknownResource? ==> t.value.uri == uri && t.calls == []
    ensures t.value.SearchPage? <==> StartsWith(uri, Prefix) && RemoveAll(uri, Prefix) == SearchSlug
    ensures t.value.SearchPage? ==> t.value.info == SearchPayload && t.calls == []
    ensures StartsWith(uri, Prefix) && RemoveAll(uri, Prefix) != SearchSlug ==>
      t == WeatherResource(up, lt, CityOfSlug(RemoveAll(uri, Prefix)))
  {
    if StartsWith(uri, Prefix) then
      var slug := RemoveAll(uri, Prefix);
      if slug == SearchSlug then Traced(SearchPage(SearchPayload), [])
      else WeatherResource(up, lt, CityOfSlug(slug))
    else
      Traced(UnknownResource(uri), [])
  }

  /** A city name of ASCII letters and spaces that is already title-cased. */
  ghost predicate PlainCityName(city: string) {
    && (forall i :: 0 <= i < |city| ==> city[i] == ' ' || IsLetter(city[i]))
    && Title(city) == city
  }

  /** The slug of a plain city name contains only letters and hyphens. */
  lemma SlugChars(city: string)
    requires PlainCityName(city)
    ensures forall i :: 0 <= i < |CitySlug(city)| ==> CitySlug(city)[i] == '-' || IsLetter(CitySlug(city)[i])
    ensures |CitySlug(city)| == |city|
  {
  }

  /** Reading a slug back gives the plain city name it was made from. */
  lemma SlugRoundTrip(city: string)
    requires PlainCityName(city)
    ensures CityOfSlug(CitySlug(city)) == city
  {
    var lower := Lower(city);
    assert '-' !in lower by {
      forall i | 0 <= i < |lower| ensures lower[i] != '-' {
        assert lower[i] == LowerChar(city[i]);
      }
    }
    ReplaceCharBack(lower, ' ', '-');
    TitleOfLower(city);
  }

  /** The only plain city name whose slug is `search` is "Search". */
  lemma SearchSlugCity(city: string)
    requires PlainCityName(city)
    requires CitySlug(city) == SearchSlug
    ensures city == "Search"
  {
    SlugRoundTrip(city);
    assert CityOfSlug(SearchSlug) == "Search";
  }

  /** The URI listed for a plain city name (other than "Search") reads back
      as the current weather of exactly that city. */
  lemma {:induction false} ReadListedCity(up: Upstream, lt: LocalTime, city: string)
    requires PlainCityName(city) && city != "Search"
    ensures StartsWith(CityUri(city), Prefix)
    ensures RemoveAll(CityUri(city), Prefix) == CitySlug(city) != SearchSlug
    ensures CityOfSlug(RemoveAll(CityUri(city), Prefix)) == city
    ensures ReadResource(up, lt, CityUri(city)) == WeatherResource(up, lt, city)
  {
    var slug := CitySlug(city);
    assert CityUri(city)[..|Prefix|] == Prefix;
    RemoveAllAfterPrefix(Prefix, slug);
    SlugChars(city);
    assert ':' !in slug by {
      forall i | 0 <= i < |slug| ensures slug[i] != ':' { }
    }
    assert Prefix[7] == ':';
    RemoveAllAbsent(slug, Prefix, ':');
    if slug == SearchSlug {
      SearchSlugCity(city);
    }
    SlugRoundTrip(city);
  }

  /** Every popular city is a plain city name other than "Search". */
  lemma PopularCitiesArePlain()
    ensures forall i :: 0 <= i < |PopularCities| ==> PlainCityName(PopularCities[i]) && PopularCities[i] != "Search"
  {
    forall i | 0 <= i < |PopularCities|
      ensures PlainCityName(PopularCities[i]) && PopularCities[i] != "Search"
    {
      var c := PopularCities[i];
      assert Title(c) == c;
    }
  }

  /** Reading back what is listed: each popular city's URI gives the weather
      lookup for that very city, and the search URI gives the static payload. */
  lemma ListedResourcesReadBack(up: Upstream, lt: LocalTime)
    ensures forall i :: 0 <= i < |PopularCities| ==>
      ReadResource(up, lt, CityUri(PopularCities[i])) == WeatherResource(up, lt, PopularCities[i])
    ensures ReadResource(up, lt, SearchResource.uri) == Traced(SearchPage(SearchPayload), [])
  {
    PopularCitiesArePlain();
    forall i | 0 <= i < |PopularCities|
      ensures ReadResource(up, lt, CityUri(PopularCities[i])) == WeatherResource(up, lt, PopularCities[i])
    {
      ReadListedCity(up, lt, PopularCities[i]);
    }
    assert SearchResource.uri[..|Prefix|] == Prefix;
    RemoveAllAfterPrefix(Prefix, SearchSlug);
    RemoveAllAbsent(SearchSlug, Prefix, ':');
  }

  /** The listed URIs are pairwise distinct. */
  lemma ListedUrisDistinct()
    ensures forall i, j :: 0 <= i < j < |PopularCities| ==> CityUri(PopularCities[i]) != CityUri(PopularCities[j])
    ensures forall i :: 0 <= i < |PopularCities| ==> CityUri(PopularCities[i]) != SearchResource.uri
  {
    PopularCitiesArePlain();
    forall i, j | 0 <= i < j < |PopularCities|
      ensures CityUri(PopularCities[i]) != CityUri(PopularCities[j])
    {
      if CityUri(PopularCities[i]) == CityUri(PopularCities[j]) {
        assert CitySlug(PopularCities[i]) == CityUri(PopularCities[i])[|Prefix|..];
        assert CitySlug(PopularCities[j]) == CityUri(PopularCities[j])[|Prefix|..];
        SlugRoundTrip(PopularCities[i]);
        SlugRoundTrip(PopularCities[j]);
      }
    }
    forall i | 0 <= i < |PopularCities|
      ensures CityUri(PopularCities[i]) != SearchResource.uri
    {
      if CityUri(PopularCities[i]) == SearchResource.uri {
        assert CitySlug(PopularCities[i]) == CityUri(PopularCities[i])[|Prefix|..];
        assert SearchSlug == SearchResource.uri[|Prefix|..];
        SearchSlugCity(PopularCities[i]);
      }
    }
  }
}
