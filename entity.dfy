/**
 * The domain entities the use case and the adapters exchange, the errors
 * they return, and the repository interfaces, with Go's `(T, error)` pair.
 */
module Entity {
  import opened Wrappers
  import opened Http

  /** The errors that travel through the pipeline. */
  datatype Error =
    | ErrCEPNotFound
    | ErrEmptyAPIkey
      /** An error a library step returned, tagged with the step that produced it. */
    | Library(stage: Stage, cause: string)
      /** An error created by code outside this model, such as entity.CEPValidation. */
    | Foreign(message: string)

  /** Go's `(T, error)` result: a value and an error that is nil (None) or not. */
  datatype Ret<T> = Ret(value: T, err: Option<Error>)

  /** entity.Location. */
  datatype Location = Location(cep: string, localidade: string)

  /** The zero value `entity.Location{}`. */
  const ZeroLocation := Location("", "")

  /**
   * entity.Temperature, whose declaration is not part of this model: it is
   * either the zero value `entity.Temperature{}` or what NewTemperature built
   * from a Celsius reading.
   */
  datatype Temperature = ZeroTemperature | NewTemperature(tempC: real)

  /** entity.LocationRepository.Get, with the context left out. */
  type LocationRepository = string -> Ret<Location>

  /** entity.TemperatureRepository.Get, with the context left out. */
  type TemperatureRepository = string -> Ret<Temperature>
}
