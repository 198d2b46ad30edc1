/**
 * Service B's `/getTemperature` handler: check the zipcode from the query,
 * look it up at ViaCEP, ask the weather API for the place (spaces written as
 * hyphens), and answer with the city and the reading in three units.
 */
module ServiceB {
  import opened Wrappers
  import opened GoStrings
  import opened Http
  import opened Web

  /** The JSON `current` object as decoded, and as written back in the reply. */
  datatype WeatherFields = WeatherFields(city: string, tempC: real, tempF: real, tempK: real)

  /** The WeatherResponse struct, which fetchWeatherAPI fills from the JSON and then partly overwrites. */
  class WeatherResponse {
    var city: string
    var tempC: real
    var tempF: real
    var tempK: real

    /** Its field values, as json.Encode writes them. */
    function Fields(): WeatherFields
      reads this
    {
      WeatherFields(city, tempC, tempF, tempK)
    }

    /** json.Unmarshal into a fresh struct. */
    constructor (decoded: WeatherFields)
      ensures Fields() == decoded
    {
      city := decoded.city;
      tempC := decoded.tempC;
      tempF := decoded.tempF;
      tempK := decoded.tempK;
    }
  }

  /** celsiusToFahrenheit: undone by subtracting 32 and dividing by 1.8. */
  function CelsiusToFahrenheit(celsius: real): (f: real)
    ensures (f - 32.0) / 1.8 == celsius
  {
    celsius * 1.8 + 32.0
  }

  /** celsiusToKelvin, with an offset of 273. */
  function CelsiusToKelvin(celsius: real): (k: real)
    ensures k - celsius == 273.0
  {
    celsius + 273.0
  }

  /** The factor 1.8 is 9/5. */
  lemma FahrenheitIsNineFifthsPlus32(celsius: real)
    ensures CelsiusToFahrenheit(celsius) == celsius * 9.0 / 5.0 + 32.0
  {
  }

  /** The Kelvin reading sits 273 above the Celsius one, 0.15 short of the absolute scale. */
  lemma KelvinOffsetIs273(celsius: real)
    ensures CelsiusToKelvin(celsius) == celsius + 273.15 - 0.15
  {
  }

  /** Both conversions preserve the order of readings. */
  lemma ConversionsMonotonic(c1: real, c2: real)
    requires c1 < c2
    ensures CelsiusToFahrenheit(c1) < CelsiusToFahrenheit(c2)
    ensures CelsiusToKelvin(c1) < CelsiusToKelvin(c2)
  {
  }

  /** 25 degrees Celsius is reported as 77 Fahrenheit and 298 Kelvin. */
  lemma TwentyFiveDegrees()
    ensures CelsiusToFahrenheit(25.0) == 77.0
    ensures CelsiusToKelvin(25.0) == 298.0
  {
  }

  /** The weather API key hard-wired in the URL; no property depends on its value. */
  const WeatherApiKey: string
  const WeatherPrefix := "http://api.weatherapi.com/v1/current.json?q="

  /** The weather URL of fetchWeatherAPI: the location verbatim after `q=`, then the key. */
  function WeatherApiUrl(location: string): (url: string)
    ensures |url| == |WeatherPrefix| + |location| + |"&key="| + |WeatherApiKey|
    ensures url[..|WeatherPrefix|] == "http://api.weatherapi.com/v1/current.json?q="
    ensures url[|WeatherPrefix|..|WeatherPrefix| + |location|] == location
    ensures url[|WeatherPrefix| + |location|..] == "&key=" + WeatherApiKey
  {
    WeatherPrefix + location + "&key=" + WeatherApiKey
  }

  /**
   * fetchWeatherAPI: fetch and decode the `current` object, then overwrite
   * its city with the location with hyphens turned back into spaces, and its
   * Fahrenheit and Kelvin readings with conversions of its Celsius reading.
   */
  method FetchWeatherAPI(client: Client, unmarshal: seq<bv8> -> Outcome<WeatherFields>, location: string)
    returns (data: WeatherResponse?, err: Option<string>)
    ensures var fetched := FetchJson(client, unmarshal, WeatherApiUrl(location), "Weather");
            && (fetched.Failed? ==> data == null && err == Some(fetched.cause))
            && (fetched.Done? ==>
                  && err == None && data != null && fresh(data)
                  && data.Fields() == WeatherFields(ReplaceAll(location, '-', ' '), fetched.value.tempC,
                                                    CelsiusToFahrenheit(fetched.value.tempC),
                                                    CelsiusToKelvin(fetched.value.tempC)))
  {
    var fetched := FetchJson(client, unmarshal, WeatherApiUrl(location), "Weather");
    if fetched.Failed? {
      return null, Some(fetched.cause);
    }
    data := new WeatherResponse(fetched.value);

    var fahrenheit := data.tempC;
    var kelvin := data.tempC;

    var formatString := ReplaceAll(location, '-', ' ');

    data.city := formatString;
    data.tempF := CelsiusToFahrenheit(fahrenheit);
    data.tempK := CelsiusToKelvin(kelvin);
    err := None;
  }

  /** The status code and body written to the ResponseWriter. */
  datatype Body = Text(text: string) | Json(weather: WeatherFields)
  datatype Reply = Reply(status: int, body: Body)

  /**
   * The handler's decision ladder: 422 for an invalid zipcode, before any
   * lookup; 404 when the ViaCEP lookup fails or reports `erro`; 500 when the
   * weather lookup fails; 200 otherwise, with the city as the place name sent
   * (spaces as hyphens) turned back (hyphens as spaces), and the Celsius
   * reading with its two conversions.
   */
  method HandleGetTemperature(client: Client, decodeViaCep: seq<bv8> -> Outcome<ViaCEP>,
                              decodeWeather: seq<bv8> -> Outcome<WeatherFields>, query: Values)
    returns (reply: Reply)
    ensures var cep := QueryGet(query, "cep");
            && (reply.status == StatusUnprocessableEntity <==> !ValidZipcode(cep))
            && (!ValidZipcode(cep) ==> reply.body == Text("invalid zipcode"))
            && (ValidZipcode(cep) ==>
                  var found := FetchViaCep(client, decodeViaCep, cep);
                  && (reply.status == StatusNotFound <==> found.Failed? || found.value.erro)
                  && (found.Failed? || found.value.erro ==> reply.body == Text("can not found zipcode"))
                  && (found.Done? && !found.value.erro ==>
                        var sent := ReplaceAll(found.value.localidade, ' ', '-');
                        var weather := FetchJson(client, decodeWeather, WeatherApiUrl(sent), "Weather");
                        && (reply.status == StatusInternalServerError <==> weather.Failed?)
                        && (weather.Failed? ==> reply.body == Text("error getting weather data"))
                        && (reply.status == StatusOK <==> weather.Done?)
                        && (weather.Done? ==>
                              var c := weather.value.tempC;
                              reply.body == Json(WeatherFields(ReplaceAll(sent, '-', ' '), c,
                                                               CelsiusToFahrenheit(c), CelsiusToKelvin(c))))))
  {
    var cep := QueryGet(query, "cep");

    var numeric := false;
    if Utf8Len(cep) == 8 {
      numeric := IsStringNumeric(cep);
    }
    if Utf8Len(cep) != 8 || !numeric {
      return Reply(StatusUnprocessableEntity, Text("invalid zipcode"));
    }

    var viaCEP := FetchViaCep(client, decodeViaCep, cep);
    if viaCEP.Failed? {
      return Reply(StatusNotFound, Text("can not found zipcode"));
    }
    if viaCEP.value.erro {
      return Reply(StatusNotFound, Text("can not found zipcode"));
    }

    var removeSpaces := ReplaceAll(viaCEP.value.localidade, ' ', '-');

    var weather, err := FetchWeatherAPI(client, decodeWeather, removeSpaces);
    if err.Some? {
      return Reply(StatusInternalServerError, Text("error getting weather data"));
    }
    return Reply(StatusOK, Json(weather.Fields()));
  }

  /** The place name sent to the weather API holds no spaces. */
  lemma SentPlaceHasNoSpaces(localidade: string)
    ensures ' ' !in ReplaceAll(localidade, ' ', '-')
  {
    ReplaceAllRemoves(localidade, ' ', '-');
  }

  /** The reported city equals ViaCEP's `localidade` exactly when that name holds no hyphen. */
  lemma CityIsLocalidadeIff(localidade: string)
    ensures ReplaceAll(ReplaceAll(localidade, ' ', '-'), '-', ' ') == localidade <==> '-' !in localidade
  {
    ReplaceAllRoundTrip(localidade, ' ', '-');
  }
}
