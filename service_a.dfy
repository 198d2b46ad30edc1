/**
 * Service A's `/getTemperature` handler: decode the JSON body, check the
 * zipcode, look it up at ViaCEP and answer with the place name.
 */
module ServiceA {
  import opened Wrappers
  import opened GoStrings
  import opened Http
  import opened Web

  /** The request body: {"cep": ...}. */
  datatype Input = Input(cep: string)

  /** What the handler writes: plain text, or a JSON-encoded string. */
  datatype Body = Text(text: string) | JsonString(value: string)

  /** The status code and body written to the ResponseWriter. */
  datatype Reply = Reply(status: int, body: Body)

  /**
   * The handler's decision ladder: 400 for an undecodable body, then 422 for
   * an invalid zipcode, then 404 when the lookup fails or ViaCEP reports
   * `erro`, and 200 with the place name otherwise. No lookup happens before
   * the zipcode is accepted: on those paths the reply does not depend on the
   * client.
   */
  method HandleGetTemperature(client: Client, decodeInput: seq<bv8> -> Outcome<Input>,
                              decodeViaCep: seq<bv8> -> Outcome<ViaCEP>, requestBody: seq<bv8>)
    returns (reply: Reply)
    ensures reply.status == StatusBadRequest <==> decodeInput(requestBody).Failed?
    ensures decodeInput(requestBody).Failed? ==> reply.body == Text("invalid request body")
    ensures decodeInput(requestBody).Done? ==>
              var cep := decodeInput(requestBody).value.cep;
              && (reply.status == StatusUnprocessableEntity <==> !ValidZipcode(cep))
              && (!ValidZipcode(cep) ==> reply.body == Text("invalid zipcode"))
              && (ValidZipcode(cep) ==>
                    var found := FetchViaCep(client, decodeViaCep, cep);
                    && (reply.status == StatusNotFound <==> found.Failed? || found.value.erro)
                    && (found.Failed? || found.value.erro ==> reply.body == Text("can not found zipcode"))
                    && (reply.status == StatusOK <==> found.Done? && !found.value.erro)
                    && (found.Done? && !found.value.erro ==> reply.body == JsonString(found.value.localidade)))
  {
    var data := decodeInput(requestBody);
    if data.Failed? {
      return Reply(StatusBadRequest, Text("invalid request body"));
    }
    var cep := data.value.cep;

    var numeric := false;
    if Utf8Len(cep) == 8 {
      numeric := IsStringNumeric(cep);
    }
    if Utf8Len(cep) != 8 || !numeric {
      return Reply(StatusUnprocessableEntity, Text("invalid zipcode"));
    }

    var viaCEP := FetchViaCep(client, decodeViaCep, cep);
    if viaCEP.Failed? {
      return Reply(StatusNotFound, Text("can not found zipcode"));
    }
    if viaCEP.value.erro {
      return Reply(StatusNotFound, Text("can not found zipcode"));
    }
    return Reply(StatusOK, JsonString(viaCEP.value.localidade));
  }
}
