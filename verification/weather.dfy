/**
 * The weather lookup of src/lib/weather.ts: the input guard and request URL
 * of `getWeather`, and the `canGoOutside` threshold predicate. The HTTP call
 * itself is a parameter `fetch` from request URL to response.
 */
module Weather {
  import opened Wrappers

  /** The fields of the OpenWeatherMap response that the code reads. */
  datatype WeatherResponse = WeatherResponse(
    feelsLike: real,          // main.feels_like
    humidity: real,           // main.humidity
    conditions: seq<string>,  // weather[i].main, in list order
    windSpeed: real)          // wind.speed

  datatype WeatherError =
    | InvalidAddress           // thrown by the guard before any request
    | RequestFailed(reason: string)
    | NoConditions             // TypeError: weather[0] is undefined

  /** The HTTP GET, from request URL to decoded response or failure. */
  type Fetch = string -> Result<WeatherResponse, string>

  const BaseUrl: string := "http://api.openweathermap.org/data/2.5/weather"

  const Rain: string := "Rain"

  /** The query URL built by the template literal: no escaping of city or country. */
  function RequestUrl(city: string, country: string, apiKey: string): (url: string)
    ensures |url| == |BaseUrl| + 3 + |city| + 1 + |country| + 7 + |apiKey| + 13
    ensures url[..|BaseUrl|] == BaseUrl
    ensures url[|BaseUrl|..|BaseUrl| + 3 + |city|] == "?q=" + city
    ensures url[|BaseUrl| + 3 + |city|..|BaseUrl| + 4 + |city| + |country|] == "," + country
    ensures url[|BaseUrl| + 4 + |city| + |country|..|url| - 13] == "&appid=" + apiKey
    ensures url[|url| - 13..] == "&units=metric"
  {
    BaseUrl + "?q=" + city + "," + country + "&appid=" + apiKey + "&units=metric"
  }

  /** `getWeather`: the guard throws "Invalid address" before any request. */
  function GetWeather(city: string, country: string, apiKey: string, fetch: Fetch): (r: Result<WeatherResponse, WeatherError>)
    ensures city == "" || country == "" ==> r == Err(InvalidAddress)
    ensures city != "" && country != "" ==>
      match fetch(RequestUrl(city, country, apiKey))
      case Ok(w) => r == Ok(w)
      case Err(e) => r == Err(RequestFailed(e))
  {
    if city == "" || country == "" then Err(InvalidAddress)
    else
      match fetch(RequestUrl(city, country, apiKey))
      case Ok(w) => Ok(w)
      case Err(e) => Err(RequestFailed(e))
  }

  /** The four thresholds, read as a reference definition with the first condition given. */
  predicate Pleasant(w: WeatherResponse)
    requires |w.conditions| > 0
  {
    w.feelsLike < 25.0 && w.humidity < 80.0 && w.conditions[0] != Rain && w.windSpeed < 5.0
  }

  /**
   * `canGoOutside` with JavaScript's short-circuit `&&`: `weather[0].main` is
   * read only when the first two conjuncts hold, and throws when the list is empty.
   */
  function CanGoOutside(w: WeatherResponse): (r: Result<bool, WeatherError>)
    ensures |w.conditions| > 0 ==> r == Ok(Pleasant(w))
    ensures |w.conditions| == 0 ==>
      r == if w.feelsLike < 25.0 && w.humidity < 80.0 then Err(NoConditions) else Ok(false)
  {
    if !(w.feelsLike < 25.0) then Ok(false)
    else if !(w.humidity < 80.0) then Ok(false)
    else if |w.conditions| == 0 then Err(NoConditions)
    else if w.conditions[0] == Rain then Ok(false)
    else Ok(w.windSpeed < 5.0)
  }

  /** A feels-like temperature of 25 or more alone forces "no", whatever else holds. */
  lemma HotMeansStayInside(w: WeatherResponse)
    requires w.feelsLike >= 25.0
    ensures CanGoOutside(w) == Ok(false)
  {
  }

  /** Only the first entry of the condition list is consulted. */
  lemma OnlyFirstConditionCounts(w: WeatherResponse, rest: seq<string>)
    requires |w.conditions| > 0
    ensures CanGoOutside(w.(conditions := [w.conditions[0]] + rest)) == CanGoOutside(w)
  {
  }

  /** Lowering feels-like, humidity or wind speed never turns a "yes" into a "no". */
  lemma CanGoOutsideMonotone(w: WeatherResponse, v: WeatherResponse)
    requires CanGoOutside(w) == Ok(true)
    requires v.feelsLike <= w.feelsLike && v.humidity <= w.humidity && v.windSpeed <= w.windSpeed
    requires v.conditions == w.conditions
    ensures CanGoOutside(v) == Ok(true)
  {
  }

  /** An empty address never reaches the network: the answer is the same for every fetch. */
  lemma InvalidAddressIssuesNoRequest(city: string, country: string, apiKey: string, f: Fetch, g: Fetch)
    requires city == "" || country == ""
    ensures GetWeather(city, country, apiKey, f) == GetWeather(city, country, apiKey, g) == Err(InvalidAddress)
  {
  }

  /** A valid address depends on the fetch only through the one URL built from it. */
  lemma GetWeatherUsesOnlyItsUrl(city: string, country: string, apiKey: string, f: Fetch, g: Fetch)
    requires f(RequestUrl(city, country, apiKey)) == g(RequestUrl(city, country, apiKey))
    ensures GetWeather(city, country, apiKey, f) == GetWeather(city, country, apiKey, g)
  {
  }
}
