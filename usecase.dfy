/**
 * The GetWeather use case: validate the postal code, look the location up,
 * look the temperature of that location up, and report it in three units.
 * The two repositories, the validation and the unit conversions are supplied
 * from outside; the use case only sequences them.
 */
module Usecase {
  import opened Wrappers
  import opened Entity

  /** dto.LocationInput. */
  datatype LocationInput = LocationInput(cep: string)

  /** dto.TemperatureOutput. */
  datatype TemperatureOutput = TemperatureOutput(location: string, tempC: real, tempF: real, tempK: real)

  /** The zero value `dto.TemperatureOutput{}`. */
  const ZeroOutput := TemperatureOutput("", 0.0, 0.0, 0.0)

  /** The Celsius, Fahrenheit and Kelvin readers of entity.Temperature. */
  datatype Units = Units(celsius: Temperature -> real, fahrenheit: Temperature -> real, kelvin: Temperature -> real)

  /** The GetWeather struct: the two repositories it reads. */
  datatype GetWeather = GetWeather(locationRepo: LocationRepository, tempRepo: TemperatureRepository)

  /**
   * GetWeather.Execute. Each stage runs only when every earlier one succeeded,
   * and a failure is returned as it came, with the zero output.
   */
  function Execute(gw: GetWeather, cepValidation: string -> Option<Error>, units: Units, input: LocationInput)
    : (r: Ret<TemperatureOutput>)
    // a failing validation is returned as it is, with the zero output
    ensures cepValidation(input.cep).Some? ==> r == Ret(ZeroOutput, cepValidation(input.cep))
    // the location is looked up by the input postal code; its failure is returned as it is
    ensures cepValidation(input.cep).None? && gw.locationRepo(input.cep).err.Some? ==>
              r == Ret(ZeroOutput, gw.locationRepo(input.cep).err)
    // the temperature is looked up by the place name, never by the postal code; its failure is returned as it is
    ensures cepValidation(input.cep).None? && gw.locationRepo(input.cep).err.None? ==>
              var place := gw.locationRepo(input.cep).value.localidade;
              && (gw.tempRepo(place).err.Some? ==> r == Ret(ZeroOutput, gw.tempRepo(place).err))
              && (gw.tempRepo(place).err.None? ==>
                    var t := gw.tempRepo(place).value;
                    r == Ret(TemperatureOutput(place, units.celsius(t), units.fahrenheit(t), units.kelvin(t)), None))
  {
    match cepValidation(input.cep)
    case Some(cepErr) => Ret(ZeroOutput, Some(cepErr))
    case None =>
      var location := gw.locationRepo(input.cep);
      if location.err.Some? then Ret(ZeroOutput, location.err)
      else
        var temperature := gw.tempRepo(location.value.localidade);
        if temperature.err.Some? then Ret(ZeroOutput, temperature.err)
        else
          var t := temperature.value;
          Ret(TemperatureOutput(location.value.localidade, units.celsius(t), units.fahrenheit(t), units.kelvin(t)), None)
  }

  /**
   * Execute creates no error of its own: every error it returns came from the
   * validation or from one of the two repositories, and comes with the zero output.
   */
  lemma ExecuteAddsNoError(gw: GetWeather, cepValidation: string -> Option<Error>, units: Units, input: LocationInput)
    ensures var r := Execute(gw, cepValidation, units, input);
            r.err.Some? ==>
              && r.value == ZeroOutput
              && (|| r.err == cepValidation(input.cep)
                  || r.err == gw.locationRepo(input.cep).err
                  || r.err == gw.tempRepo(gw.locationRepo(input.cep).value.localidade).err)
  {
  }

  /** Execute succeeds exactly when the validation and both lookups do. */
  lemma ExecuteSucceedsIff(gw: GetWeather, cepValidation: string -> Option<Error>, units: Units, input: LocationInput)
    ensures Execute(gw, cepValidation, units, input).err.None? <==>
              && cepValidation(input.cep).None?
              && gw.locationRepo(input.cep).err.None?
              && gw.tempRepo(gw.locationRepo(input.cep).value.localidade).err.None?
  {
  }

  /**
   * When validation fails neither repository is consulted: any two pairs of
   * repositories give the same result.
   */
  lemma InvalidCepCallsNoRepository(gw1: GetWeather, gw2: GetWeather, cepValidation: string -> Option<Error>,
                                    units: Units, input: LocationInput)
    requires cepValidation(input.cep).Some?
    ensures Execute(gw1, cepValidation, units, input) == Execute(gw2, cepValidation, units, input)
  {
  }

  /**
   * The location repository is consulted only with the input postal code, and
   * the temperature repository only with the place name it returned: two
   * pairs of repositories that agree there give the same result.
   */
  lemma LookupsUseCepThenPlace(gw1: GetWeather, gw2: GetWeather, cepValidation: string -> Option<Error>,
                               units: Units, input: LocationInput)
    requires gw1.locationRepo(input.cep) == gw2.locationRepo(input.cep)
    requires var place := gw1.locationRepo(input.cep).value.localidade;
             gw1.tempRepo(place) == gw2.tempRepo(place)
    ensures Execute(gw1, cepValidation, units, input) == Execute(gw2, cepValidation, units, input)
  {
  }

  /** A failed location lookup means the temperature repository is never consulted. */
  lemma LocationFailureSkipsTemperature(gw1: GetWeather, gw2: GetWeather, cepValidation: string -> Option<Error>,
                                        units: Units, input: LocationInput)
    requires gw1.locationRepo(input.cep) == gw2.locationRepo(input.cep)
    requires gw1.locationRepo(input.cep).err.Some?
    ensures Execute(gw1, cepValidation, units, input) == Execute(gw2, cepValidation, units, input)
    ensures Execute(gw1, cepValidation, units, input).value == ZeroOutput
  {
  }
}
