/**
 * The use case with CEPFromAPI as its location repository: what the pipeline
 * does when the provider does not know a postal code, or knows it.
 */
module Pipeline {
  import opened Wrappers
  import opened Http
  import opened Entity
  import opened Usecase
  import CepApi

  /** The use case with CEPFromAPI.Get as its location repository. */
  function WithCepApi(cap: CepApi.CEPFromAPI, client: Client, decode: seq<bv8> -> Outcome<CepApi.LocationOut>,
                      tempRepo: TemperatureRepository): GetWeather
  {
    GetWeather(cep => CepApi.Get(cap, client, decode, cep), tempRepo)
  }

  /**
   * A postal code that passes validation but comes back from the provider
   * with an empty `cep` ends the pipeline with ErrCEPNotFound and the zero
   * output, whatever the temperature repository would have answered.
   */
  lemma UnknownCepStopsPipeline(cap: CepApi.CEPFromAPI, client: Client, decode: seq<bv8> -> Outcome<CepApi.LocationOut>,
                                t1: TemperatureRepository, t2: TemperatureRepository,
                                cepValidation: string -> Option<Error>, units: Units, input: LocationInput)
    requires cepValidation(input.cep).None?
    requires var e := Send(client, CepApi.CreateCepEndpoint(cap.config.cepURL, input.cep));
             e.Received? && decode(e.body).Done? && decode(e.body).value.cep == ""
    ensures Execute(WithCepApi(cap, client, decode, t1), cepValidation, units, input) == Ret(ZeroOutput, Some(ErrCEPNotFound))
    ensures Execute(WithCepApi(cap, client, decode, t1), cepValidation, units, input)
         == Execute(WithCepApi(cap, client, decode, t2), cepValidation, units, input)
  {
  }

  /**
   * A postal code the provider knows: the temperature is looked up by the
   * provider's place name and the output reports that name.
   */
  lemma KnownCepReachesTemperature(cap: CepApi.CEPFromAPI, client: Client, decode: seq<bv8> -> Outcome<CepApi.LocationOut>,
                                   tempRepo: TemperatureRepository, cepValidation: string -> Option<Error>,
                                   units: Units, input: LocationInput)
    requires cepValidation(input.cep).None?
    requires var e := Send(client, CepApi.CreateCepEndpoint(cap.config.cepURL, input.cep));
             e.Received? && decode(e.body).Done? && decode(e.body).value.cep != ""
    requires var e := Send(client, CepApi.CreateCepEndpoint(cap.config.cepURL, input.cep));
             tempRepo(decode(e.body).value.localidade).err.None?
    ensures var e := Send(client, CepApi.CreateCepEndpoint(cap.config.cepURL, input.cep));
            var place := decode(e.body).value.localidade;
            var t := tempRepo(place).value;
            Execute(WithCepApi(cap, client, decode, tempRepo), cepValidation, units, input)
              == Ret(TemperatureOutput(place, units.celsius(t), units.fahrenheit(t), units.kelvin(t)), None)
  {
  }
}
