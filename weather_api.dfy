/**
 * WeatherFromAPI: the temperature repository backed by the weather provider.
 * Get parses the endpoint URL, refuses an empty API key, sets the three query
 * parameters, sends one GET and decodes the Celsius reading.
 */
module WeatherApi {
  import opened Wrappers
  import opened GoStrings
  import opened Http
  import opened Config
  import opened Entity

  /** dto.TemperatureResponseOut, reduced to the one field Get reads: current.temp_c. */
  datatype CurrentOut = CurrentOut(tempC: real)
  datatype TemperatureResponseOut = TemperatureResponseOut(current: CurrentOut)

  /** The WeatherFromAPI struct. */
  datatype WeatherFromAPI = WeatherFromAPI(config: Config)

  /** createWeatherEndpoint: `{base}/v1/current.json`. */
  function CreateWeatherEndpoint(baseUrl: string): (url: string)
    ensures url == baseUrl + "/v1/current.json"
  {
    JoinThree(baseUrl, "v1", "current.json", "/");
    Join([baseUrl, "v1", "current.json"], "/")
  }

  /**
   * The URL Get requests: the parsed endpoint with `key`, `q` and `aqi` each
   * holding exactly one value, replacing whatever the endpoint carried under
   * those keys, and every other query key left as it was.
   */
  function WithParams(u: Url, apiKey: string, location: string): (v: Url)
    ensures v.prefix == u.prefix
    ensures v.query.Keys == u.query.Keys + {"key", "q", "aqi"}
    ensures v.query["key"] == [apiKey] && v.query["q"] == [location] && v.query["aqi"] == ["no"]
    ensures forall k :: k in u.query && k != "key" && k != "q" && k != "aqi" ==> v.query[k] == u.query[k]
  {
    var keys := u.query.Keys + {"key", "q", "aqi"};
    u.(query := map k | k in keys ::
                  if k == "key" then [apiKey]
                  else if k == "q" then [location]
                  else if k == "aqi" then ["no"]
                  else u.query[k])
  }

  /** An endpoint without a query of its own ends up with exactly the three parameters. */
  lemma ExactlyThreeParams(u: Url, apiKey: string, location: string)
    requires u.query == map[]
    ensures WithParams(u, apiKey, location).query == map["key" := [apiKey], "q" := [location], "aqi" := ["no"]]
  {
  }

  /**
   * WeatherFromAPI.Get. A URL-parse failure is reported first, then an empty
   * API key, before any request exists. The request targets the endpoint with
   * the three parameters. When building the request fails, Get returns the
   * variable `urlErr`, which is nil there: the zero Temperature with no error.
   * A send, read or decode failure is returned as it came with the zero
   * Temperature; success carries only the Celsius reading.
   */
  method Get(wap: WeatherFromAPI, urls: UrlCodec, client: Client,
             unmarshal: seq<bv8> -> Outcome<TemperatureResponseOut>, location: string)
    returns (t: Temperature, err: Option<Error>)
    ensures err.Some? ==> t == ZeroTemperature
    ensures var parsed := urls.parse(CreateWeatherEndpoint(wap.config.temperatureURL));
            && (parsed.Failed? ==> err == Some(Library(ParseUrl, parsed.cause)))
            && (parsed.Done? && wap.config.temperatureApiKey == "" ==> err == Some(ErrEmptyAPIkey))
            && (parsed.Done? && wap.config.temperatureApiKey != "" ==>
                  var e := Send(client, urls.format(WithParams(parsed.value, wap.config.temperatureApiKey, location)));
                  && (e.Stopped? && e.stage == NewRequest ==> t == ZeroTemperature && err == None)
                  && (e.Stopped? && e.stage != NewRequest ==> err == Some(Library(e.stage, e.cause)))
                  && (e.Received? && unmarshal(e.body).Failed? ==>
                        err == Some(Library(Unmarshal, unmarshal(e.body).cause)))
                  && (e.Received? && unmarshal(e.body).Done? ==>
                        t == NewTemperature(unmarshal(e.body).value.current.tempC) && err == None))
  {
    var parsed := urls.parse(CreateWeatherEndpoint(wap.config.temperatureURL));
    if parsed.Failed? {
      return ZeroTemperature, Some(Library(ParseUrl, parsed.cause));
    }
    var u := parsed.value;
    var urlErr: Option<Error> := None;
    var apiKey := wap.config.temperatureApiKey;
    if apiKey == "" {
      return ZeroTemperature, Some(ErrEmptyAPIkey);
    }

    var q := u.query;
    q := Set(q, "key", apiKey);
    q := Set(q, "q", location);
    q := Set(q, "aqi", "no");
    u := u.(query := q);
    assert u == WithParams(parsed.value, apiKey, location);

    var req := client.newRequest(MethodGet, urls.format(u));
    if req.Failed? {
      return ZeroTemperature, urlErr;
    }
    var resp := client.do(req.value);
    if resp.Failed? {
      return ZeroTemperature, Some(Library(Do, resp.cause));
    }
    var bodyBytes := client.readAll(resp.value);
    if bodyBytes.Failed? {
      return ZeroTemperature, Some(Library(ReadBody, bodyBytes.cause));
    }
    var weatherData := unmarshal(bodyBytes.value);
    if weatherData.Failed? {
      return ZeroTemperature, Some(Library(Unmarshal, weatherData.cause));
    }
    return NewTemperature(weatherData.value.current.tempC), None;
  }
}
