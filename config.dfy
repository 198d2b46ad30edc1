/** The part of the configuration the two adapters read. */
module Config {

  /** config.Config: CEP.URL, Temperature.URL and Temperature.ApiKey. */
  datatype Config = Config(cepURL: string, temperatureURL: string, temperatureApiKey: string)
}
