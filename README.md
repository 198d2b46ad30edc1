# CEP → weather pipeline, modelled in Dafny

This project models the decision and string logic of a small Go system that turns a Brazilian
postal code (CEP) into a place name and then into the current temperature in three units:

- the **GetWeather use case** (`Usecase.Execute`): validate the CEP, look the location up, look the
  temperature of that location's name up, build the output; the first failure is returned as it came;
- the **location adapter** `CEPFromAPI` (`CepApi`): builds `{base}/ws/{cep}/json`, sends one GET,
  decodes the body and treats an empty `cep` in the decoded record as not found;
- the **weather adapter** `WeatherFromAPI` (`WeatherApi`): builds `{base}/v1/current.json`, refuses an
  empty API key before any request exists, sets exactly the `key`, `q` and `aqi` query parameters,
  sends one GET and keeps only the Celsius reading;
- the **two standalone services** (`Web`, `ServiceA`, `ServiceB`): the digit loop `isStringNumeric`,
  the "8 digits" zipcode check, the ViaCEP fetch, the status ladders (400 / 422 / 404 / 500 / 200),
  service B's space↔hyphen rewriting of the place name and its Celsius → Fahrenheit / Kelvin conversions.

Go's `(T, error)` pair is `Entity.Ret<T>`, with a nil error as `None`, wherever a function returns it;
the two methods `WeatherApi.Get` and `ServiceB.FetchWeatherAPI` return the same pair as two
out-parameters, and `FetchWeatherAPI`'s error is only ever a message (`Option<string>`), as
`fmt.Errorf` builds it; `Web.FetchJson` and `Web.FetchViaCep` return Go's `(*ViaCEP, error)` as an
`Outcome<T>`, whose failure likewise carries only the `fmt.Errorf` message. The network, JSON decoding
and URL parsing are functions the caller supplies (`Http.Client`, `Http.UrlCodec`, a decoder
`seq<bv8> -> Outcome<T>` per record type); a library error is kept as `Library(stage, cause)`, the
stage naming the library step that produced it. The CEP validation, the repositories and the
Temperature unit readers, whose code is not part of this model, are function parameters as well.
"No call is made" is stated as independence: the result is the same whatever the skipped
collaborator would have answered. Go strings are sequences of Unicode characters; `Utf8Len` gives
the byte count Go's `len` reports. Temperatures are `real`.

Modules: `Wrappers`, `GoStrings`, `Http`, `Config`, `Entity` (shared vocabulary), `Usecase`
(internal/temperature/usecase/getWeather.go), `CepApi` (internal/temperature/infra/api/getCep.go),
`WeatherApi` (internal/temperature/infra/api/getWeather.go), `Web` (what serviceA/main.go and
serviceB/main.go both declare, modelled once), `ServiceA`, `ServiceB`, `Pipeline` (the use case wired
to the CEP adapter).

## Model

| member | source | states |
|---|---|---|
| `GoStrings.JoinFour` | internal/temperature/infra/api/getCep.go:20-22 | strings.Join of four parts puts the separator exactly between consecutive parts |
| `GoStrings.JoinThree` | internal/temperature/infra/api/getWeather.go:22-24 | strings.Join of three parts puts the separator exactly between consecutive parts |
| `GoStrings.Join` | internal/temperature/infra/api/getCep.go:21 | strings.Join of no parts is "" and of one part is that part |
| `GoStrings.JoinSnoc` | internal/temperature/infra/api/getCep.go:21 | for any non-empty list of parts, joining one more part appends the separator and that part, so the separator sits exactly between consecutive parts whatever their number |
| `GoStrings.ReplaceAll` | serviceB/main.go:76 | strings.ReplaceAll with one-character arguments keeps the length and changes exactly the occurrences of the old character |
| `GoStrings.ReplaceAllRemoves` | serviceB/main.go:76 | after the rewrite no occurrence of the replaced character is left |
| `GoStrings.ReplaceAllRoundTrip` | serviceB/main.go:148-150 | rewriting a→b then b→a gives back the input exactly when the input held no b (both directions) |
| `GoStrings.RuneLen` | serviceB/main.go:57 | a character takes 1 to 4 UTF-8 bytes, and 1 exactly when it is ASCII |
| `GoStrings.Utf8Len` | serviceB/main.go:57 | Go's `len` is at least the number of characters, and equal to it exactly when every character is ASCII |
| `Http.QueryGet` | serviceB/main.go:55 | `Query().Get("cep")` is the first value under the key, or "" when the key is absent |
| `Http.Set` | internal/temperature/infra/api/getWeather.go:53-55 | `Values.Set` leaves the key with the one new value, replacing earlier ones, and every other key untouched |
| `Http.HttpGet` | serviceA/main.go:96 | `http.Get` fails with the request-building error when the request cannot be built |
| `Http.Send` | internal/temperature/infra/api/getCep.go:42-69 | build, send, read happen in that order; the first failing step stops the call; the body is returned (`Received`) only when all three succeed |
| `Usecase.Execute` | internal/temperature/usecase/getWeather.go:25-49 | validation error returned as is; location looked up by the input CEP and its error returned as is; temperature looked up by the location's `Localidade` and its error returned as is; every error with the zero output; success reports `Localidade` and C/F/K of the one Temperature |
| `Usecase.ExecuteAddsNoError` | internal/temperature/usecase/getWeather.go:29-41 | every error Execute returns is the validation's or one repository's, with the zero output |
| `Usecase.ExecuteSucceedsIff` | internal/temperature/usecase/getWeather.go:29-48 | Execute succeeds exactly when validation and both lookups succeed |
| `Usecase.InvalidCepCallsNoRepository` | internal/temperature/usecase/getWeather.go:29-31 | after a validation failure the result does not depend on either repository |
| `Usecase.LookupsUseCepThenPlace` | internal/temperature/usecase/getWeather.go:33-38 | the location repository is consulted only at the input CEP and the temperature repository only at the returned `Localidade` |
| `Usecase.LocationFailureSkipsTemperature` | internal/temperature/usecase/getWeather.go:33-36 | after a location failure the result does not depend on the temperature repository and carries the zero output |
| `CepApi.CreateCepEndpoint` | internal/temperature/infra/api/getCep.go:20-22 | the endpoint is `base + "/ws/" + cep + "/json"`, no trailing slash |
| `CepApi.Get` | internal/temperature/infra/api/getCep.go:34-84 | request/send/read/decode failures returned as they came in that order; decoded empty `cep` gives ErrCEPNotFound and a non-empty one success; every failure with the zero Location; success carries the provider's `cep` and `localidade` |
| `CepApi.NotFoundOnlyFromEmptyCep` | internal/temperature/infra/api/getCep.go:76-78 | ErrCEPNotFound is returned exactly when the body was read and decoded into a record with an empty `cep` |
| `CepApi.OnlyEndpointIsRequested` | internal/temperature/infra/api/getCep.go:42-47 | the result depends on the network only through the one URL built from the configured base and the argument |
| `CepApi.EmptyCepScenario` | internal/temperature/infra/api/getCep.go:76-78 | for "99999999" and a provider answering `cep: ""`, Get returns the zero Location and ErrCEPNotFound |
| `CepApi.ProviderCepScenario` | internal/temperature/infra/api/getCep.go:80-83 | for "01001000" and a provider answering "01001-000", Get reports "01001-000", not its argument |
| `WeatherApi.CreateWeatherEndpoint` | internal/temperature/infra/api/getWeather.go:22-24 | the endpoint is `base + "/v1/current.json"` |
| `WeatherApi.WithParams` | internal/temperature/infra/api/getWeather.go:52-56 | the requested URL keeps the parsed prefix, has `key`, `q`, `aqi` with exactly one value each (apiKey, location verbatim, "no") and every other key unchanged |
| `WeatherApi.ExactlyThreeParams` | internal/temperature/infra/api/getWeather.go:52-56 | an endpoint without its own query ends with exactly the three parameters |
| `WeatherApi.Get` | internal/temperature/infra/api/getWeather.go:36-94 | URL-parse error first, then ErrEmptyAPIkey, both before any request; the request targets the endpoint with the three parameters; a request-building failure gives the zero Temperature and NO error (`urlErr` is nil there); send/read/decode failures returned as they came with the zero Temperature; success is NewTemperature of `current.temp_c` |
| `Web.IsStringNumeric` | serviceB/main.go:97-104 | true exactly when every character is '0'..'9'; the empty string counts as numeric (serviceA/main.go:116-123 is the same code) |
| `Web.ValidZipcode` | serviceB/main.go:57 | the `len(cep) == 8 && isStringNumeric(cep)` test of both handlers (serviceA/main.go:62 too); an accepted string has eight characters, all digits |
| `Web.ValidZipcodeIff` | serviceB/main.go:57-61 | `len(cep) == 8 && isStringNumeric(cep)` accepts exactly the eight-character strings of ASCII digits |
| `Web.ViaCepUrl` | serviceB/main.go:107 | the URL is the CEP verbatim between "http://viacep.com.br/ws/" and "/json/" |
| `Web.ViaCepUrlInjective` | serviceB/main.go:107 | distinct CEPs are sent to distinct URLs |
| `Web.FetchJson` | serviceB/main.go:106-125 | get, read, decode in that order; each failure wrapped in the message naming its step; the decoded record returned unchanged |
| `Web.FetchViaCep` | serviceA/main.go:95-114 | a failed GET to the ViaCEP URL gives "failed to make request to ViaCEP API: " and the cause |
| `ServiceA.HandleGetTemperature` | serviceA/main.go:50-86 | 400 exactly for an undecodable body; then 422 "invalid zipcode" exactly for an invalid zipcode, with no lookup; then 404 exactly when the lookup fails or reports `erro`; otherwise 200 with `localidade` |
| `ServiceB.WeatherResponse.constructor` | serviceB/main.go:140-143 | the struct holds the decoded `current` fields |
| `ServiceB.CelsiusToFahrenheit` | serviceB/main.go:156-158 | `c*1.8 + 32`, undone by `(f - 32)/1.8` |
| `ServiceB.CelsiusToKelvin` | serviceB/main.go:160-162 | the Kelvin reading is exactly 273 above the Celsius one |
| `ServiceB.FahrenheitIsNineFifthsPlus32` | serviceB/main.go:156-158 | `c*1.8 + 32` is `c*9/5 + 32` over the reals |
| `ServiceB.KelvinOffsetIs273` | serviceB/main.go:160-162 | the Kelvin reading is the Celsius one plus 273, 0.15 below the absolute scale |
| `ServiceB.ConversionsMonotonic` | serviceB/main.go:156-162 | both conversions preserve the order of readings |
| `ServiceB.TwentyFiveDegrees` | serviceB/main.go:156-162 | 25 °C is reported as 77 °F and 298 K |
| `ServiceB.WeatherApiUrl` | serviceB/main.go:128 | the location sits verbatim after `q=`, followed by `&key=` and the fixed key |
| `ServiceB.FetchWeatherAPI` | serviceB/main.go:127-154 | a fetch failure gives no struct and the wrapped message; otherwise a fresh struct whose city is the location with '-' turned to ' ', whose Celsius reading is the decoded one and whose F and K readings are its conversions (the decoded `temp_f`/`temp_k` are overwritten) |
| `ServiceB.HandleGetTemperature` | serviceB/main.go:54-88 | 422 exactly for an invalid zipcode, with no lookup; 404 exactly when the ViaCEP lookup fails or reports `erro`; 500 exactly when the weather lookup of `localidade` with ' ' → '-' fails; otherwise 200 with that name turned back and the reading in C/F/K |
| `ServiceB.SentPlaceHasNoSpaces` | serviceB/main.go:76 | the place name sent to the weather API holds no space |
| `ServiceB.CityIsLocalidadeIff` | serviceB/main.go:148-150 | the reported city equals ViaCEP's `localidade` exactly when it holds no '-' |
| `Pipeline.UnknownCepStopsPipeline` | internal/temperature/usecase/getWeather.go:33-36 | with the CEP adapter as location repository, a provider answer with empty `cep` ends the pipeline with ErrCEPNotFound and the zero output, whatever the temperature repository is |
| `Pipeline.KnownCepReachesTemperature` | internal/temperature/usecase/getWeather.go:38-48 | with the CEP adapter as location repository, the temperature is looked up by the provider's `localidade` and the output reports it |

## Behaviour worth knowing

The model follows the code in each case.

- Absolute Kelvin is Celsius + 273.15; `celsiusToKelvin` adds 273 (serviceB/main.go:160-162).
- The weather adapter parses the endpoint URL before it looks at the API key, so a parse failure is
  reported even when the key is empty (internal/temperature/infra/api/getWeather.go:42-50).
- The location adapter treats only an empty `cep` as not found and ignores ViaCEP's `erro` flag
  (internal/temperature/infra/api/getCep.go:76-78); the two services test only `erro` and never the
  empty `cep`.
- When the weather adapter cannot build its request it returns `urlErr`, which is nil there, so the
  caller sees the zero Temperature and no error (internal/temperature/infra/api/getWeather.go:60-64).
- Cancellation and the 10-second deadlines come from the Go runtime; the model has them only as a
  failed send.

## Left out

- `ServiceB.WeatherApiKey`: the literal key serviceB/main.go:128 writes into the URL is left unspecified; no property depends on its value.
- Tracing: the propagator `Extract`, `tracer.Start`, `span.End` and `initTracer` are OpenTelemetry library calls with no effect on results.
- Contexts, `context.WithTimeout`, the HTTP client's timeout and its TLS settings: a deadline or a cancellation appears only as a failed send.
- JSON encoding and decoding, `url.Parse`, `URL.String` and `Values.Encode` (percent-encoding, key order): library behaviour, supplied as functions; a query is a map from key to values.
- `entity.CEPValidation`, `entity.NewTemperature`, the Temperature methods `Celsius`/`Fahrenheit`/`Kelvin` and the `dto` types: their code is not part of this model; they are parameters, or records reduced to the fields the modelled code reads.
- Logging (`log.Println`, `fmt.Printf`) and the `Content-Type` header: output with no effect on the decisions.
- Process start-up: main.go, cmd/service/main.go, cmd/serviceA/main.go, the nested `http.HandleFunc` and the second `ListenAndServe` inside each service's handler.
- `Entity.Temperature`: `entity.NewTemperature` is a constructor here, so the model treats it as injective and its results as distinct from the zero `entity.Temperature{}`; the entity's code is not part of this model and may make `NewTemperature(0)` equal to the zero value. No property proved here depends on that distinction.
- Strings are sequences of Unicode characters: a Go string holding invalid UTF-8 is not modelled.
- IEEE float64 arithmetic: conversions are over `real`, so `1.8` is exact here and rounding is not modelled.
- `Web.FetchViaCep`: its contract names only the request-failure message; the full order of its failures is stated by `Web.FetchJson`, which it calls.
