/**
 * The tool registry of src/lib/openai-functions.ts: a closed object of two
 * named tools, each taking `{ city, country }` and answering a string.
 */
module ToolRegistry {
  import opened Wrappers
  import opened JsonValue
  import opened Weather

  datatype Tool = CanGoOutsideTool | GetCurrentTemperatureTool

  /** What a tool needs from outside: the API key, the HTTP fetch and `Number#toString`. */
  datatype ToolEnv = ToolEnv(apiKey: string, fetch: Fetch, formatNumber: real -> string)

  datatype ToolError =
    | ParamsNotObject          // destructuring `null` throws
    | WeatherFailed(cause: WeatherError)

  /** The registry's own keys. */
  const Registry: map<string, Tool> :=
    map["canGoOutside" := CanGoOutsideTool, "getCurrentTemperature" := GetCurrentTemperatureTool]

  function Name(t: Tool): (n: string)
    ensures n in Registry && Registry[n] == t
  {
    match t
    case CanGoOutsideTool => "canGoOutside"
    case GetCurrentTemperatureTool => "getCurrentTemperature"
  }

  /** `hasOwnProperty(name)` then the indexed read. */
  function Lookup(name: string): (r: Option<Tool>)
    ensures r.Some? <==> name in Registry
    ensures r.Some? ==> Name(r.value) == name
  {
    if name in Registry then Some(Registry[name]) else None
  }

  lemma RegistryHasExactlyTwoTools()
    ensures Registry.Keys == {"canGoOutside", "getCurrentTemperature"}
    ensures |Registry| == 2
  {
    assert "canGoOutside" != "getCurrentTemperature";
  }

  /** Every tool is found under its own name, and every name found names that tool. */
  lemma LookupNameRoundTrip(t: Tool, n: string)
    ensures Lookup(Name(t)) == Some(t)
    ensures Lookup(n) == Some(t) ==> n == Name(t)
  {
  }

  /** The address a tool reads from its parsed arguments: `const { city, country } = params`. */
  datatype Address = Address(city: string, country: string)

  /**
   * A missing or non-string field reaches `getWeather` as a falsy value and is
   * modelled as the empty string.
   */
  function AddressOf(params: Json): (r: Result<Address, ToolError>)
    ensures r.Err? <==> params == JNull
    ensures params.JObj? && "city" in params.fields && params.fields["city"].JStr? ==>
      r.Ok? && r.value.city == params.fields["city"].s
    ensures params.JObj? && "country" in params.fields && params.fields["country"].JStr? ==>
      r.Ok? && r.value.country == params.fields["country"].s
  {
    match (Field(Val(params), "city"), Field(Val(params), "country"))
    case (Ok(c), Ok(k)) =>
      var city := AsString(c);
      var country := AsString(k);
      Ok(Address(if city.Some? then city.value else "", if country.Some? then country.value else ""))
    case _ => Err(ParamsNotObject)
  }

  function Fetched(env: ToolEnv, a: Address): Result<WeatherResponse, WeatherError> {
    GetWeather(a.city, a.country, env.apiKey, env.fetch)
  }

  /** The `canGoOutside` tool: the predicate's boolean as "true" / "false". */
  function CanGoOutsideOutput(env: ToolEnv, a: Address): (r: Result<string, ToolError>)
    ensures r.Ok? ==> r.value == "true" || r.value == "false"
    ensures r == Ok("true") <==> Fetched(env, a).Ok? && CanGoOutside(Fetched(env, a).value) == Ok(true)
    ensures r == Ok("false") <==> Fetched(env, a).Ok? && CanGoOutside(Fetched(env, a).value) == Ok(false)
  {
    match Fetched(env, a)
    case Err(e) => Err(WeatherFailed(e))
    case Ok(w) =>
      match CanGoOutside(w)
      case Err(e) => Err(WeatherFailed(e))
      case Ok(ok) => Ok(if ok then "true" else "false")
  }

  /** The `getCurrentTemperature` tool: the feels-like temperature as a string. */
  function CurrentTemperatureOutput(env: ToolEnv, a: Address): (r: Result<string, ToolError>)
    ensures r.Ok? <==> Fetched(env, a).Ok?
    ensures r.Ok? ==> r.value == env.formatNumber(Fetched(env, a).value.feelsLike)
  {
    match Fetched(env, a)
    case Err(e) => Err(WeatherFailed(e))
    case Ok(w) => Ok(env.formatNumber(w.feelsLike))
  }

  /** `fn(args)` for a registered tool. */
  function Invoke(env: ToolEnv, t: Tool, params: Json): (r: Result<string, ToolError>)
    ensures params == JNull ==> r == Err(ParamsNotObject)
    ensures params != JNull && t == CanGoOutsideTool ==> r == CanGoOutsideOutput(env, AddressOf(params).value)
    ensures params != JNull && t == GetCurrentTemperatureTool ==>
      r == CurrentTemperatureOutput(env, AddressOf(params).value)
  {
    match AddressOf(params)
    case Err(e) => Err(e)
    case Ok(a) =>
      match t
      case CanGoOutsideTool => CanGoOutsideOutput(env, a)
      case GetCurrentTemperatureTool => CurrentTemperatureOutput(env, a)
  }

  /** Both tools fetch exactly the URL of the city and country they were given. */
  lemma InvokeFetchesOnlyItsAddress(env: ToolEnv, other: Fetch, t: Tool, a: Address)
    requires env.fetch(RequestUrl(a.city, a.country, env.apiKey)) == other(RequestUrl(a.city, a.country, env.apiKey))
    ensures Invoke(env, t, AddressJson(a)) == Invoke(env.(fetch := other), t, AddressJson(a))
  {
    AddressJsonRoundTrip(a);
    GetWeatherUsesOnlyItsUrl(a.city, a.country, env.apiKey, env.fetch, other);
  }

  /** The arguments object `{ city, country }` that the assistant sends. */
  function AddressJson(a: Address): Json {
    JObj(map["city" := JStr(a.city), "country" := JStr(a.country)])
  }

  lemma AddressJsonRoundTrip(a: Address)
    ensures AddressOf(AddressJson(a)) == Ok(a)
  {
  }

  /** The temperature output depends on the fetched record only through feels-like. */
  lemma TemperatureDependsOnlyOnFeelsLike(env: ToolEnv, other: Fetch, a: Address)
    requires Fetched(env, a).Ok? && Fetched(env.(fetch := other), a).Ok?
    requires Fetched(env, a).value.feelsLike == Fetched(env.(fetch := other), a).value.feelsLike
    ensures CurrentTemperatureOutput(env, a) == CurrentTemperatureOutput(env.(fetch := other), a)
  {
  }

  /** A city that feels 25 degrees or warmer makes the `canGoOutside` tool answer "false". */
  lemma HotCityAnswersFalse(env: ToolEnv, a: Address)
    requires Fetched(env, a).Ok? && Fetched(env, a).value.feelsLike >= 25.0
    ensures Invoke(env, CanGoOutsideTool, AddressJson(a)) == Ok("false")
  {
    AddressJsonRoundTrip(a);
    HotMeansStayInside(Fetched(env, a).value);
  }
}
