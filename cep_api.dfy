/**
 * CEPFromAPI: the location repository backed by the postal-code provider.
 * Get builds the endpoint from the configured base URL and the postal code,
 * sends one GET, decodes the body, and treats an empty `cep` in the decoded
 * record as "not found".
 */
module CepApi {
  import opened Wrappers
  import opened GoStrings
  import opened Http
  import opened Config
  import opened Entity

  /** dto.LocationOut: the provider's record, reduced to the two fields Get reads. */
  datatype LocationOut = LocationOut(cep: string, localidade: string)

  /** The CEPFromAPI struct. */
  datatype CEPFromAPI = CEPFromAPI(config: Config)

  /** createCepEndpoint: `{base}/ws/{cep}/json`, with no trailing slash. */
  function CreateCepEndpoint(baseUrl: string, cep: string): (url: string)
    ensures url == baseUrl + "/ws/" + cep + "/json"
  {
    JoinFour(baseUrl, "ws", cep, "json", "/");
    Join([baseUrl, "ws", cep, "json"], "/")
  }

  /**
   * CEPFromAPI.Get. Request building, sending, reading and decoding are tried
   * in that order and the first failure is returned as it came; a decoded
   * record with an empty `cep` is the not-found case; every failure comes with
   * the zero Location; a success carries the provider's `cep`, not the argument.
   */
  function Get(cap: CEPFromAPI, client: Client, unmarshal: seq<bv8> -> Outcome<LocationOut>, cep: string)
    : (r: Ret<Location>)
    ensures r.err.Some? ==> r.value == ZeroLocation
    ensures var e := Send(client, CreateCepEndpoint(cap.config.cepURL, cep));
            && (e.Stopped? ==> r.err == Some(Library(e.stage, e.cause)))
            && (e.Received? && unmarshal(e.body).Failed? ==>
                  r.err == Some(Library(Unmarshal, unmarshal(e.body).cause)))
            && (e.Received? && unmarshal(e.body).Done? ==>
                  var out := unmarshal(e.body).value;
                  && (r.err == Some(ErrCEPNotFound) <==> out.cep == "")
                  && (r.err.None? <==> out.cep != "")
                  && (r.err.None? ==> r.value == Location(out.cep, out.localidade)))
  {
    match Send(client, CreateCepEndpoint(cap.config.cepURL, cep))
    case Stopped(stage, cause) => Ret(ZeroLocation, Some(Library(stage, cause)))
    case Received(body) =>
      match unmarshal(body)
      case Failed(cause) => Ret(ZeroLocation, Some(Library(Unmarshal, cause)))
      case Done(location) =>
        if location.cep == "" then Ret(ZeroLocation, Some(ErrCEPNotFound))
        else Ret(Location(location.cep, location.localidade), None)
  }

  /**
   * ErrCEPNotFound has one source only: a body that was fetched and decoded
   * into a record whose `cep` is empty. No other field is consulted.
   */
  lemma NotFoundOnlyFromEmptyCep(cap: CEPFromAPI, client: Client, unmarshal: seq<bv8> -> Outcome<LocationOut>,
                                 cep: string)
    ensures var e := Send(client, CreateCepEndpoint(cap.config.cepURL, cep));
            Get(cap, client, unmarshal, cep).err == Some(ErrCEPNotFound) <==>
              e.Received? && unmarshal(e.body).Done? && unmarshal(e.body).value.cep == ""
  {
  }

  /**
   * The request goes to the endpoint made of the configured base and the
   * argument only: two clients that answer that one URL alike give the same result.
   */
  lemma OnlyEndpointIsRequested(cap: CEPFromAPI, c1: Client, c2: Client, unmarshal: seq<bv8> -> Outcome<LocationOut>,
                                cep: string)
    requires Send(c1, CreateCepEndpoint(cap.config.cepURL, cep)) == Send(c2, CreateCepEndpoint(cap.config.cepURL, cep))
    ensures Get(cap, c1, unmarshal, cep) == Get(cap, c2, unmarshal, cep)
  {
  }

  /** The provider's answer with an empty `cep` is not found, whatever else the record holds. */
  lemma EmptyCepScenario(base: string, localidade: string)
    ensures var client := Client((m, u) => Done(Request(m, u)), req => Done(Response(200)), resp => Done([]));
            var decode := (b: seq<bv8>) => Done(LocationOut("", localidade));
            Get(CEPFromAPI(Config(base, "", "")), client, decode, "99999999") == Ret(ZeroLocation, Some(ErrCEPNotFound))
  {
  }

  /** The provider may format the postal code differently; Get reports the provider's form. */
  lemma ProviderCepScenario(base: string)
    ensures var client := Client((m, u) => Done(Request(m, u)), req => Done(Response(200)), resp => Done([]));
            var decode := (b: seq<bv8>) => Done(LocationOut("01001-000", "São Paulo"));
            Get(CEPFromAPI(Config(base, "", "")), client, decode, "01001000") == Ret(Location("01001-000", "São Paulo"), None)
  {
  }
}
