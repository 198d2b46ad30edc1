/**
 * The HTTP and URL layer as the adapters and services see it. Everything that
 * talks to the network or parses text is a function supplied by the caller:
 * a request is built, sent and its body read, and each step may fail with the
 * library's message. `url.Values` is a map from key to values.
 */
module Http {
  import opened Wrappers

  const MethodGet := "GET"

  /** A request as http.NewRequestWithContext builds it: the method and the target URL. */
  datatype Request = Request(verb: string, url: string)

  /** A received response; its status code is never examined by the code modelled here. */
  datatype Response = Response(status: int)

  /** The steps of one outbound call: build the request, send it, read the whole body. */
  datatype Client = Client(
    newRequest: (string, string) -> Outcome<Request>,
    do: Request -> Outcome<Response>,
    readAll: Response -> Outcome<seq<bv8>>)

  /** url.Values: each query key with its list of values. */
  type Values = map<string, seq<string>>

  /** A parsed URL: what precedes the query, as the library prints it, and the decoded query. */
  datatype Url = Url(prefix: string, query: Values)

  /** url.Parse and URL.String. */
  datatype UrlCodec = UrlCodec(parse: string -> Outcome<Url>, format: Url -> string)

  /** url.Values.Get: the first value under `key`, or "" when there is none. */
  function QueryGet(v: Values, key: string): (r: string)
    ensures key !in v ==> r == ""
    ensures key in v && |v[key]| == 0 ==> r == ""
    ensures key in v && |v[key]| > 0 ==> r == v[key][0]
  {
    if key in v && |v[key]| > 0 then v[key][0] else ""
  }

  /** url.Values.Set: `key` now holds `value` alone, whatever it held before; other keys are untouched. */
  function Set(v: Values, key: string, value: string): (r: Values)
    ensures r.Keys == v.Keys + {key}
    ensures r[key] == [value]
    ensures forall k :: k in v && k != key ==> r[k] == v[k]
  {
    v[key := [value]]
  }

  /** http.Get: a GET request to `url` sent with the default client. */
  function HttpGet(c: Client, url: string): (r: Outcome<Response>)
    ensures c.newRequest(MethodGet, url).Failed? ==> r == Failed(c.newRequest(MethodGet, url).cause)
    ensures c.newRequest(MethodGet, url).Done? ==> r == c.do(c.newRequest(MethodGet, url).value)
  {
    match c.newRequest(MethodGet, url)
    case Failed(cause) => Failed(cause)
    case Done(req) => c.do(req)
  }

  /** The library step at which an outbound call stopped. */
  datatype Stage = ParseUrl | NewRequest | Do | ReadBody | Unmarshal

  /** How a GET to one URL ended: stopped at a step with that step's message, or with the body read. */
  datatype Exchange = Stopped(stage: Stage, cause: string) | Received(body: seq<bv8>)

  /**
   * A GET to `url` with the request built, sent and read in that order; the
   * first step that fails decides the outcome and no later step is taken.
   */
  function Send(c: Client, url: string): (e: Exchange)
    ensures e.Stopped? ==> e.stage in {NewRequest, Do, ReadBody}
    ensures c.newRequest(MethodGet, url).Failed? ==>
              e == Stopped(NewRequest, c.newRequest(MethodGet, url).cause)
    ensures c.newRequest(MethodGet, url).Done? ==>
              var req := c.newRequest(MethodGet, url).value;
              && (c.do(req).Failed? ==> e == Stopped(Do, c.do(req).cause))
              && (c.do(req).Done? ==>
                    var read := c.readAll(c.do(req).value);
                    && (read.Failed? ==> e == Stopped(ReadBody, read.cause))
                    && (read.Done? ==> e == Received(read.value)))
    ensures e.Received? <==>
              && c.newRequest(MethodGet, url).Done?
              && c.do(c.newRequest(MethodGet, url).value).Done?
              && c.readAll(c.do(c.newRequest(MethodGet, url).value).value).Done?
  {
    match c.newRequest(MethodGet, url)
    case Failed(cause) => Stopped(NewRequest, cause)
    case Done(req) =>
      match c.do(req)
      case Failed(cause) => Stopped(Do, cause)
      case Done(resp) =>
        match c.readAll(resp)
        case Failed(cause) => Stopped(ReadBody, cause)
        case Done(body) => Received(body)
  }
}
