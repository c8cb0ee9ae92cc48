/** The client half of the bridge: `NATSHTTPTransport.RoundTrip`, which turns
    an outgoing HTTP request into one NATS request/reply exchange.

    Every collaborator is an input: the outcome of reading the request body
    travels with the request, the JSON codec is an `Envelope.Codec`, and the
    NATS `Request` call is a function from subject, payload and timeout to a
    reply payload or an error. A run records the collaborator calls in the
    order they are made, and then what `RoundTrip` hands back. */
module Client {
  import opened Common
  import opened Headers
  import opened Envelope

  /** The parts of an `*http.Request` that `RoundTrip` reads. `body` is
      `None` for a nil `Body`, and otherwise what `io.ReadAll` returns on it;
      `url` is what `req.URL.String()` returns. */
  datatype HttpRequest = HttpRequest(
    httpMethod: string,
    url: string,
    header: Header,
    body: Option<ReadOutcome>)

  /** The `*http.Response` that `RoundTrip` builds. */
  datatype HttpResponse = HttpResponse(
    statusCode: int,
    header: Header,
    body: Bytes)

  /** The transport's configuration: the request subject and the timeout
      handed to every NATS request. */
  datatype Transport = Transport(subjectReq: string, timeout: int)

  /** NATS `Request(subject, data, timeout)`: a reply payload or an error
      (a timeout, no responders, a closed connection). */
  type Requester = (string, Bytes, int) -> Result<Bytes, Error>

  /** One call on a collaborator, with its arguments. */
  datatype Call =
    | ReadBody
    | Marshal(envelope: RequestEnvelope)
    | Request(subject: string, data: Bytes, timeout: int)
    | Unmarshal(data: Bytes)

  /** How `RoundTrip` ends: Go's `(*http.Response, error)` pair, or a panic. */
  datatype Outcome =
    | Returned(resp: Option<HttpResponse>, err: Option<Error>)
    | Panicked(reason: Panic)

  datatype Run = Run(calls: seq<Call>, outcome: Outcome)

  /** The position of each collaborator in `RoundTrip`'s sequence of steps. */
  function Stage(c: Call): nat
  {
    match c
    case ReadBody => 0
    case Marshal(_) => 1
    case Request(_, _, _) => 2
    case Unmarshal(_) => 3
  }

  /** The envelope body: the bytes read, or nothing for a nil `Body`. */
  function BodyBytes(body: Option<ReadOutcome>): Bytes
  {
    if body.Some? then body.value.data else []
  }

  /** `RoundTrip` (main.go, lines 42-92). */
  function RoundTrip(t: Transport, req: HttpRequest, codec: Codec, request: Requester): (r: Run)
    // Each collaborator is called at most once, and in the order of the source.
    ensures forall i, j :: 0 <= i < j < |r.calls| ==> Stage(r.calls[i]) < Stage(r.calls[j])
    // A response and an error are never returned together, and never both missing.
    ensures r.outcome.Returned? ==> (r.outcome.resp.Some? <==> r.outcome.err.None?)
    // A response only comes back after the reply has been decoded.
    ensures r.outcome.Returned? && r.outcome.resp.Some? ==>
              |r.calls| >= 3 && r.calls[|r.calls| - 1].Unmarshal?
  {
    if HasEmptyList(req.header) then
      Run([], Panicked(IndexOutOfRange))
    else
      var headers := FirstValues(req.header);
      var read := if req.body.Some? then [ReadBody] else [];
      if req.body.Some? && req.body.value.err.Some? then
        Run(read, Returned(None, req.body.value.err))
      else
        var envelope := RequestEnvelope(req.httpMethod, req.url, headers, BodyBytes(req.body));
        var marshalled := read + [Marshal(envelope)];
        match codec.marshalRequest(envelope)
        case Failure(e) => Run(marshalled, Returned(None, Some(e)))
        case Success(data) =>
          var sent := marshalled + [Request(t.subjectReq, data, t.timeout)];
          match request(t.subjectReq, data, t.timeout)
          case Failure(e) => Run(sent, Returned(None, Some(e)))
          case Success(reply) =>
            var decoded := sent + [Unmarshal(reply)];
            match codec.unmarshalResponse(reply)
            case Failure(e) => Run(decoded, Returned(None, Some(e)))
            case Success(natsResp) =>
              var resp := HttpResponse(natsResp.statusCode, SingleValued(natsResp.header), natsResp.body);
              Run(decoded, Returned(Some(resp), None))
  }

  /** The envelope that `RoundTrip` marshals. */
  function EnvelopeOf(req: HttpRequest): RequestEnvelope
    requires !HasEmptyList(req.header)
  {
    RequestEnvelope(req.httpMethod, req.url, FirstValues(req.header), BodyBytes(req.body))
  }

  /** An empty value list in the request header panics before any
      collaborator is called. */
  lemma EmptyValueListPanics(t: Transport, req: HttpRequest, codec: Codec, request: Requester)
    requires HasEmptyList(req.header)
    ensures RoundTrip(t, req, codec, request) == Run([], Panicked(IndexOutOfRange))
  {
  }

  /** A failed body read returns its error before anything is marshalled or
      sent. */
  lemma BodyReadErrorStopsFirst(t: Transport, req: HttpRequest, codec: Codec, request: Requester)
    requires !HasEmptyList(req.header)
    requires req.body.Some? && req.body.value.err.Some?
    ensures RoundTrip(t, req, codec, request) == Run([ReadBody], Returned(None, req.body.value.err))
  {
  }

  /** Whenever an envelope is marshalled it is the request's method, its URL,
      its first-valued header and the whole body read (empty for a nil
      body), and the payload sent is exactly what the codec produced from it,
      on the configured subject with the configured timeout. */
  lemma EnvelopeCarriesRequest(t: Transport, req: HttpRequest, codec: Codec, request: Requester, i: nat)
    requires i < |RoundTrip(t, req, codec, request).calls|
    ensures var r := RoundTrip(t, req, codec, request);
            (r.calls[i].Marshal? ==>
               !HasEmptyList(req.header) &&
               r.calls[i].envelope == EnvelopeOf(req) &&
               r.calls[i].envelope.httpMethod == req.httpMethod &&
               r.calls[i].envelope.url == req.url &&
               r.calls[i].envelope.body == (if req.body.Some? then req.body.value.data else [])) &&
            (r.calls[i].Request? ==>
               !HasEmptyList(req.header) &&
               r.calls[i] == Request(t.subjectReq, codec.marshalRequest(EnvelopeOf(req)).value, t.timeout) &&
               codec.marshalRequest(EnvelopeOf(req)).Success?)
  {
  }

  /** A marshalling error is returned before the NATS request is made. */
  lemma MarshalErrorStopsBeforeRequest(t: Transport, req: HttpRequest, codec: Codec, request: Requester)
    requires !HasEmptyList(req.header)
    requires req.body.None? || req.body.value.err.None?
    requires codec.marshalRequest(EnvelopeOf(req)).Failure?
    ensures var r := RoundTrip(t, req, codec, request);
            r.outcome == Returned(None, Some(codec.marshalRequest(EnvelopeOf(req)).error)) &&
            r.calls[|r.calls| - 1] == Marshal(EnvelopeOf(req)) &&
            forall c :: c in r.calls ==> !c.Request?
  {
  }

  /** A failed NATS request, or a reply that does not decode, returns that
      error and no response. */
  lemma ExchangeErrorReturnsNoResponse(t: Transport, req: HttpRequest, codec: Codec, request: Requester)
    requires !HasEmptyList(req.header)
    requires req.body.None? || req.body.value.err.None?
    requires codec.marshalRequest(EnvelopeOf(req)).Success?
    ensures var data := codec.marshalRequest(EnvelopeOf(req)).value;
            var r := RoundTrip(t, req, codec, request);
            (request(t.subjectReq, data, t.timeout).Failure? ==>
               r.outcome == Returned(None, Some(request(t.subjectReq, data, t.timeout).error))) &&
            (request(t.subjectReq, data, t.timeout).Success? &&
             codec.unmarshalResponse(request(t.subjectReq, data, t.timeout).value).Failure? ==>
               r.outcome == Returned(None, Some(codec.unmarshalResponse(request(t.subjectReq, data, t.timeout).value).error)))
  {
  }

  /** A response is returned exactly when every step succeeded, and then it
      carries the decoded envelope's status code and body, and each envelope
      header name with exactly its one value. */
  lemma ResponseComesFromReply(t: Transport, req: HttpRequest, codec: Codec, request: Requester)
    ensures var r := RoundTrip(t, req, codec, request);
            (r.outcome.Returned? && r.outcome.resp.Some?) <==>
              (!HasEmptyList(req.header) &&
               (req.body.None? || req.body.value.err.None?) &&
               codec.marshalRequest(EnvelopeOf(req)).Success? &&
               request(t.subjectReq, codec.marshalRequest(EnvelopeOf(req)).value, t.timeout).Success? &&
               codec.unmarshalResponse(request(t.subjectReq, codec.marshalRequest(EnvelopeOf(req)).value, t.timeout).value).Success?)
    ensures var r := RoundTrip(t, req, codec, request);
            r.outcome.Returned? && r.outcome.resp.Some? ==>
              var reply := request(t.subjectReq, codec.marshalRequest(EnvelopeOf(req)).value, t.timeout).value;
              var natsResp := codec.unmarshalResponse(reply).value;
              var resp := r.outcome.resp.value;
              r.calls[|r.calls| - 1] == Unmarshal(reply) &&
              resp.statusCode == natsResp.statusCode &&
              resp.body == natsResp.body &&
              resp.header.Keys == natsResp.header.Keys &&
              IsSingleValued(resp.header) &&
              FirstValues(resp.header) == natsResp.header
  {
  }
}
