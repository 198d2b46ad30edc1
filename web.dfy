/**
 * What the two standalone services share: the ViaCEP record, the digit test
 * isStringNumeric, the zipcode check in front of every lookup, the ViaCEP
 * URL, and the fetch helper that sends a GET, reads the body and decodes it.
 */
module Web {
  import opened Wrappers
  import opened GoStrings
  import opened Http

  const StatusOK := 200
  const StatusBadRequest := 400
  const StatusNotFound := 404
  const StatusUnprocessableEntity := 422
  const StatusInternalServerError := 500

  /** The ViaCEP struct: the provider's JSON record. */
  datatype ViaCEP = ViaCEP(
    cep: string, logradouro: string, complemento: string, bairro: string, localidade: string,
    uf: string, ibge: string, gia: string, ddd: string, siafi: string, erro: bool)

  /** Every character of `s` is one of '0'..'9'; the empty string qualifies. */
  predicate IsNumeric(s: string) {
    forall i :: 0 <= i < |s| ==> '0' <= s[i] <= '9'
  }

  /** isStringNumeric: walks the characters and stops at the first that is not a digit. */
  method IsStringNumeric(s: string) returns (numeric: bool)
    ensures numeric <==> IsNumeric(s)
  {
    var i := 0;
    while i < |s|
      invariant 0 <= i <= |s|
      invariant forall j :: 0 <= j < i ==> '0' <= s[j] <= '9'
    {
      var c := s[i];
      if c < '0' || c > '9' {
        return false;
      }
      i := i + 1;
    }
    return true;
  }

  /** The test both handlers apply: `len(cep) == 8` (bytes) and every character a digit. */
  predicate ValidZipcode(cep: string): (valid: bool)
    ensures valid ==> |cep| == 8 && IsNumeric(cep)
    ensures !IsNumeric(cep) ==> !valid
  {
    Utf8Len(cep) == 8 && IsNumeric(cep)
  }

  /**
   * Although Go's `len` counts bytes and the digit loop walks characters, the
   * accepted strings are exactly the eight-character strings of ASCII digits.
   */
  lemma ValidZipcodeIff(cep: string)
    ensures ValidZipcode(cep) <==> |cep| == 8 && forall i :: 0 <= i < |cep| ==> '0' <= cep[i] <= '9'
  {
  }

  const ViaCepPrefix := "http://viacep.com.br/ws/"
  const ViaCepSuffix := "/json/"

  /** The ViaCEP URL of fetchViaCep: the postal code verbatim between a fixed prefix and suffix. */
  function ViaCepUrl(cep: string): (url: string)
    ensures |url| == |ViaCepPrefix| + |cep| + |ViaCepSuffix|
    ensures url[..|ViaCepPrefix|] == "http://viacep.com.br/ws/"
    ensures url[|ViaCepPrefix|..|ViaCepPrefix| + |cep|] == cep
    ensures url[|ViaCepPrefix| + |cep|..] == "/json/"
  {
    ViaCepPrefix + cep + ViaCepSuffix
  }

  /** Distinct postal codes are sent to distinct URLs. */
  lemma ViaCepUrlInjective(c1: string, c2: string)
    requires ViaCepUrl(c1) == ViaCepUrl(c2)
    ensures c1 == c2
  {
  }

  /**
   * The fetch helpers of both services (fetchViaCep, and the first half of
   * fetchWeatherAPI): http.Get, read the body, decode it; each failure is
   * wrapped in a message naming the step, and the first failure ends the fetch.
   */
  function FetchJson<T>(client: Client, unmarshal: seq<bv8> -> Outcome<T>, url: string, api: string): (r: Outcome<T>)
    ensures var g := HttpGet(client, url);
            && (g.Failed? ==> r == Failed("failed to make request to " + api + " API: " + g.cause))
            && (g.Done? && client.readAll(g.value).Failed? ==>
                  r == Failed("failed to read response body: " + client.readAll(g.value).cause))
            && (g.Done? && client.readAll(g.value).Done? ==>
                  var d := unmarshal(client.readAll(g.value).value);
                  && (d.Failed? ==> r == Failed("failed to unmarshal JSON: " + d.cause))
                  && (d.Done? ==> r == d))
  {
    match HttpGet(client, url)
    case Failed(cause) => Failed("failed to make request to " + api + " API: " + cause)
    case Done(resp) =>
      match client.readAll(resp)
      case Failed(cause) => Failed("failed to read response body: " + cause)
      case Done(body) =>
        match unmarshal(body)
        case Failed(cause) => Failed("failed to unmarshal JSON: " + cause)
        case Done(data) => Done(data)
  }

  /** fetchViaCep: FetchJson against the ViaCEP URL of `cep`. */
  function FetchViaCep(client: Client, unmarshal: seq<bv8> -> Outcome<ViaCEP>, cep: string): (r: Outcome<ViaCEP>)
    ensures HttpGet(client, ViaCepUrl(cep)).Failed? ==>
              r == Failed("failed to make request to ViaCEP API: " + HttpGet(client, ViaCepUrl(cep)).cause)
  {
    FetchJson(client, unmarshal, ViaCepUrl(cep), "ViaCEP")
  }
}
