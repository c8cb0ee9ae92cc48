/** The two wire records, `NATSHTTPRequest` and `NATSHTTPResponse`, the JSON
    codec that turns them into message payloads, and the literal payloads the
    server publishes when it cannot produce a response.

    The JSON byte format belongs to `encoding/json` and is not modelled: a
    `Codec` is any four functions, and lemmas that need the codec to behave
    say so in their preconditions. */
module Envelope {
  import opened Common
  import opened Headers

  /** `NATSHTTPRequest`: the request as it travels to the server. */
  datatype RequestEnvelope = RequestEnvelope(
    httpMethod: string,
    url: string,
    header: FlatHeader,
    body: Bytes)

  /** `NATSHTTPResponse`: the upstream response as it travels back. */
  datatype ResponseEnvelope = ResponseEnvelope(
    statusCode: int,
    header: FlatHeader,
    body: Bytes)

  /** `json.Marshal` and `json.Unmarshal` at the two record types. */
  datatype Codec = Codec(
    marshalRequest: RequestEnvelope -> Result<Bytes, Error>,
    unmarshalRequest: Bytes -> Result<RequestEnvelope, Error>,
    marshalResponse: ResponseEnvelope -> Result<Bytes, Error>,
    unmarshalResponse: Bytes -> Result<ResponseEnvelope, Error>)

  /** Whatever the codec encodes as a request decodes to the same request. */
  ghost predicate RequestsRoundTrip(c: Codec)
  {
    forall e :: c.marshalRequest(e).Success? ==>
      c.unmarshalRequest(c.marshalRequest(e).value) == Success(e)
  }

  /** Whatever the codec encodes as a response decodes to the same response. */
  ghost predicate ResponsesRoundTrip(c: Codec)
  {
    forall e :: c.marshalResponse(e).Success? ==>
      c.unmarshalResponse(c.marshalResponse(e).value) == Success(e)
  }

  /** `{"error": "invalid request"}`, published when a request payload does
      not decode. */
  const InvalidRequestReply: Bytes := Ascii("{\"error\": \"invalid request\"}")

  /** `{"error": "failed to make request"}`, published when the upstream call
      fails. */
  const FailedRequestReply: Bytes := Ascii("{\"error\": \"failed to make request\"}")

  /** The response record decoded from a payload none of whose fields belong
      to it: every field keeps its zero value. */
  const ZeroResponse: ResponseEnvelope := ResponseEnvelope(0, map[], [])
}
