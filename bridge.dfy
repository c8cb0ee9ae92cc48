/** The two halves together: what the server sees of a request the client
    sends, and what the client makes of a reply the server publishes. The
    NATS subject carries a payload unchanged from one side to the other.
    The transport lemmas assume only that the JSON codec decodes what it
    encodes; the lemma about error replies assumes in addition that the
    codec decodes an error payload to the zero response record. The server
    is the handler with its upstream-failure `return` restored; each lemma
    also states that the handler as written does the same there. */
module Bridge {
  import opened Common
  import opened Headers
  import opened Envelope
  import opened Client
  import opened Server

  /** A request the client sends reaches the upstream server with the
      client's method, URL and body, and with the first value of each of its
      header names; a single-valued header arrives as it was sent. */
  lemma RequestSurvivesTransport(t: Transport, req: HttpRequest, codec: Codec, request: Requester,
                                 msg: Msg, up: Upstream, publish: Publisher)
    requires RequestsRoundTrip(codec)
    requires Request(t.subjectReq, msg.data, t.timeout) in RoundTrip(t, req, codec, request).calls
    requires up.newRequest(req.httpMethod, req.url).None?
    ensures var r := GuardedHandler(msg, codec, up, publish);
            r.sent.Some? &&
            r.sent.value.httpMethod == req.httpMethod &&
            r.sent.value.url == req.url &&
            r.sent.value.body == BodyBytes(req.body) &&
            !HasEmptyList(req.header) &&
            IsSingleValued(r.sent.value.header) &&
            FirstValues(r.sent.value.header) == FirstValues(req.header) &&
            (IsSingleValued(req.header) ==> r.sent.value.header == req.header)
    ensures Handler(msg, codec, up, publish).sent == GuardedHandler(msg, codec, up, publish).sent
  {
    var calls := RoundTrip(t, req, codec, request).calls;
    var i :| 0 <= i < |calls| && calls[i] == Request(t.subjectReq, msg.data, t.timeout);
    EnvelopeCarriesRequest(t, req, codec, request, i);
    assert codec.unmarshalRequest(msg.data) == Success(EnvelopeOf(req));
    CallCarriesEnvelope(msg, codec, up, publish);
    GuardedMakesSameCall(msg, codec, up, publish);
    RebuildThenCollapse(FirstValues(req.header));
    if IsSingleValued(req.header) {
      CollapseThenRebuild(req.header);
    }
  }

  /** The reply to a successful upstream call, delivered to the client,
      gives back the upstream status code and body, and the first value of
      each upstream header name. */
  lemma ResponseSurvivesTransport(t: Transport, req: HttpRequest, codec: Codec, request: Requester,
                                  msg: Msg, up: Upstream, publish: Publisher)
    requires ResponsesRoundTrip(codec)
    requires Request(t.subjectReq, msg.data, t.timeout) in RoundTrip(t, req, codec, request).calls
    requires var r := GuardedHandler(msg, codec, up, publish);
             r.end == Completed && r.sent.Some? && up.do(r.sent.value).err.None?
    requires var u := up.do(GuardedHandler(msg, codec, up, publish).sent.value).resp.value;
             !HasEmptyList(u.header) &&
             codec.marshalResponse(ResponseEnvelope(u.statusCode, FirstValues(u.header), u.body.data)).Success?
    requires request(t.subjectReq, msg.data, t.timeout) ==
               Success(GuardedHandler(msg, codec, up, publish).published[0].data)
    ensures var u := up.do(GuardedHandler(msg, codec, up, publish).sent.value).resp.value;
            RoundTrip(t, req, codec, request).outcome ==
              Returned(Some(HttpResponse(u.statusCode, SingleValued(FirstValues(u.header)), u.body.data)), None)
    ensures Handler(msg, codec, up, publish) == GuardedHandler(msg, codec, up, publish)
  {
    GuardedAgreesUnlessCallFails(msg, codec, up, publish);
  }

  /** The error payloads carry no field of the response record, so a codec
      that, like `encoding/json`, ignores unknown fields decodes them to the
      zero response: the client then returns a response with status 0 and
      no error instead of reporting the server's failure. */
  lemma ErrorReplyReadsAsResponse(t: Transport, req: HttpRequest, codec: Codec, request: Requester,
                                  payload: Bytes)
    requires payload == InvalidRequestReply || payload == FailedRequestReply
    requires codec.unmarshalResponse(payload) == Success(ZeroResponse)
    requires !HasEmptyList(req.header)
    requires req.body.None? || req.body.value.err.None?
    requires codec.marshalRequest(EnvelopeOf(req)).Success?
    requires request(t.subjectReq, codec.marshalRequest(EnvelopeOf(req)).value, t.timeout) == Success(payload)
    ensures RoundTrip(t, req, codec, request).outcome == Returned(Some(HttpResponse(0, map[], [])), None)
  {
  }
}
