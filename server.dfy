/** The server half of the bridge: the handler that `startServer` subscribes
    to the request subject. For each message it decodes the request record,
    builds and performs the real HTTP call, and publishes the outcome to the
    message's reply subject.

    `Handler` states what the handler does, as the source is written, and
    `Handle` does it step by step on a `Connection` whose outbox collects
    what is published. `GuardedHandler` is the same handler with the `return`
    that the upstream-failure branch lacks. */
module Server {
  import opened Common
  import opened Headers
  import opened Envelope

  /** An incoming `*nats.Msg`. */
  datatype Msg = Msg(subject: string, reply: string, data: Bytes)

  /** One successful publish. */
  datatype Message = Message(subject: string, data: Bytes)

  /** The `*http.Request` handed to `Client.Do`. */
  datatype OutboundRequest = OutboundRequest(
    httpMethod: string,
    url: string,
    header: Header,
    body: Bytes)

  /** The parts of the upstream `*http.Response` the handler reads; `body`
      is what `io.ReadAll` returns on its body. */
  datatype UpstreamResponse = UpstreamResponse(
    statusCode: int,
    header: Header,
    body: ReadOutcome)

  /** What `Client.Do` returns: Go's `(*http.Response, error)` pair. */
  datatype DoOutcome = DoOutcome(resp: Option<UpstreamResponse>, err: Option<Error>)

  /** The HTTP side: the error `http.NewRequest` reports for a method and
      URL, if any, and `Client.Do`. */
  datatype Upstream = Upstream(
    newRequest: (string, string) -> Option<Error>,
    do: OutboundRequest -> DoOutcome)

  /** The error NATS `Publish` reports for a subject and payload, if any. */
  type Publisher = (string, Bytes) -> Option<Error>

  /** How one invocation of the handler ends. */
  datatype Termination = Completed | Panicked(reason: Panic)

  /** What one invocation does: the request it hands to `Do`, if it gets
      that far, the messages published, in order, and how it ends. */
  datatype Effect = Effect(
    sent: Option<OutboundRequest>,
    published: seq<Message>,
    end: Termination)

  /** The `nats.Conn`, reduced to what the handler changes: the messages
      published so far. */
  class Connection {
    var outbox: seq<Message>
    const rejects: Publisher

    constructor (rejects: Publisher)
      ensures outbox == [] && this.rejects == rejects
    {
      outbox := [];
      this.rejects := rejects;
    }

    /** `Publish(subject, data)`: appends the message unless the connection
        reports an error. */
    method Publish(subject: string, data: Bytes) returns (err: Option<Error>)
      modifies this
      ensures err == rejects(subject, data)
      ensures outbox == if err.None? then old(outbox) + [Message(subject, data)] else old(outbox)
    {
      err := rejects(subject, data);
      if err.None? {
        outbox := outbox + [Message(subject, data)];
      }
    }
  }

  /** The messages a publish whose error is ignored leaves behind. */
  function Posted(publish: Publisher, subject: string, data: Bytes): seq<Message>
  {
    if publish(subject, data).None? then [Message(subject, data)] else []
  }

  /** The request built from a decoded envelope; its header is rebuilt with
      `Set` on the empty header of a new request. */
  function Outbound(env: RequestEnvelope): OutboundRequest
  {
    OutboundRequest(env.httpMethod, env.url, SingleValued(env.header), env.body)
  }

  /** The reply payload for an upstream response: the marshalled envelope,
      or an empty payload when marshalling fails, since that error is
      dropped. */
  function ResponsePayload(codec: Codec, u: UpstreamResponse): Bytes
    requires !HasEmptyList(u.header)
  {
    var natsResp := ResponseEnvelope(u.statusCode, FirstValues(u.header), u.body.data);
    match codec.marshalResponse(natsResp)
    case Success(data) => data
    case Failure(_) => []
  }

  /** Lines 98-107: decode the payload and build the request, or stop with
      what has been done so far. */
  function Prepare(msg: Msg, codec: Codec, up: Upstream, publish: Publisher): Result<OutboundRequest, Effect>
  {
    match codec.unmarshalRequest(msg.data)
    case Failure(_) => Failure(Effect(None, Posted(publish, msg.reply, InvalidRequestReply), Completed))
    case Success(env) =>
      if up.newRequest(env.httpMethod, env.url).Some? then Failure(Effect(None, [], Completed))
      else Success(Outbound(env))
  }

  /** Lines 121-136: read the body, collapse the header, marshal the
      envelope and publish it. */
  function Respond(msg: Msg, codec: Codec, u: UpstreamResponse, publish: Publisher): (seq<Message>, Termination)
  {
    if HasEmptyList(u.header) then ([], Panicked(IndexOutOfRange))
    else
      var data := ResponsePayload(codec, u);
      match publish(msg.reply, data)
      case Some(e) => ([], Panicked(PublishFailed(e)))
      case None => ([Message(msg.reply, data)], Completed)
  }

  /** Lines 114-136 as written: after an upstream error is published the
      handler carries on to `resp.Body`. */
  function AfterCall(msg: Msg, codec: Codec, res: DoOutcome, publish: Publisher): (seq<Message>, Termination)
  {
    if res.err.Some? && publish(msg.reply, FailedRequestReply).Some? then
      ([], Panicked(PublishFailed(publish(msg.reply, FailedRequestReply).value)))
    else
      var warned := if res.err.Some? then [Message(msg.reply, FailedRequestReply)] else [];
      if res.resp.None? then (warned, Panicked(NilDereference))
      else
        var (rest, end) := Respond(msg, codec, res.resp.value, publish);
        (warned + rest, end)
  }

  /** Lines 114-136 with a `return` after the upstream error is published. */
  function GuardedAfterCall(msg: Msg, codec: Codec, res: DoOutcome, publish: Publisher): (seq<Message>, Termination)
  {
    if res.err.Some? then
      match publish(msg.reply, FailedRequestReply)
      case Some(e) => ([], Panicked(PublishFailed(e)))
      case None => ([Message(msg.reply, FailedRequestReply)], Completed)
    else if res.resp.None? then ([], Panicked(NilDereference))
    else Respond(msg, codec, res.resp.value, publish)
  }

  /** The subscription handler of `startServer` (main.go, lines 95-137), as
      written. */
  function Handler(msg: Msg, codec: Codec, up: Upstream, publish: Publisher): (r: Effect)
    // Every message goes to the reply subject of the message being handled.
    ensures forall m :: m in r.published ==> m.subject == msg.reply
    // At most two messages, and two only when `Do` returned a response and an error.
    ensures |r.published| <= 2
    ensures |r.published| == 2 ==>
              r.sent.Some? && up.do(r.sent.value).err.Some? && up.do(r.sent.value).resp.Some?
    // A nil dereference follows a `Do` that returned no response.
    ensures r.end == Panicked(NilDereference) ==> r.sent.Some? && up.do(r.sent.value).resp.None?
  {
    match Prepare(msg, codec, up, publish)
    case Failure(stopped) => stopped
    case Success(out) =>
      var (published, end) := AfterCall(msg, codec, up.do(out), publish);
      Effect(Some(out), published, end)
  }

  /** The handler with the missing `return` restored: an upstream error is
      published and the handler stops. */
  function GuardedHandler(msg: Msg, codec: Codec, up: Upstream, publish: Publisher): (r: Effect)
    ensures forall m :: m in r.published ==> m.subject == msg.reply
    ensures |r.published| <= 1
  {
    match Prepare(msg, codec, up, publish)
    case Failure(stopped) => stopped
    case Success(out) =>
      var (published, end) := GuardedAfterCall(msg, codec, up.do(out), publish);
      Effect(Some(out), published, end)
  }

  /** `Client.Do` keeps Go's convention: a nil error comes with a response. */
  ghost predicate DoKeepsContract(up: Upstream)
  {
    forall o :: up.do(o).err.None? ==> up.do(o).resp.Some?
  }

  /** The handler, step by step: what it publishes is appended to the
      connection's outbox, and it does exactly what `Handler` says. */
  method Handle(nc: Connection, msg: Msg, codec: Codec, up: Upstream)
    returns (sent: Option<OutboundRequest>, end: Termination)
    modifies nc
    ensures nc.outbox == old(nc.outbox) + Handler(msg, codec, up, nc.rejects).published
    ensures sent == Handler(msg, codec, up, nc.rejects).sent
    ensures end == Handler(msg, codec, up, nc.rejects).end
  {
    var decoded := codec.unmarshalRequest(msg.data);
    if decoded.Failure? {
      var ignored := nc.Publish(msg.reply, InvalidRequestReply);
      return None, Completed;
    }
    var env := decoded.value;
    var invalid := up.newRequest(env.httpMethod, env.url);
    if invalid.Some? {
      return None, Completed;
    }
    var header := Rebuild(env.header);
    var out := OutboundRequest(env.httpMethod, env.url, header, env.body);
    sent := Some(out);
    var res := up.do(out);
    if res.err.Some? {
      var err := nc.Publish(msg.reply, FailedRequestReply);
      if err.Some? {
        return sent, Panicked(PublishFailed(err.value));
      }
    }
    if res.resp.None? {
      return sent, Panicked(NilDereference);
    }
    var u := res.resp.value;
    var body := u.body.data;
    var collapsed := Collapse(u.header);
    if collapsed.Failure? {
      return sent, Panicked(collapsed.error);
    }
    var natsResp := ResponseEnvelope(u.statusCode, collapsed.value, body);
    var marshalled := codec.marshalResponse(natsResp);
    var respData := if marshalled.Success? then marshalled.value else [];
    var err := nc.Publish(msg.reply, respData);
    if err.Some? {
      return sent, Panicked(PublishFailed(err.value));
    }
    return sent, Completed;
  }

  /** A payload that does not decode gets exactly one `invalid request`
      reply (unless the publish itself fails, which is ignored), and the
      handler stops without a call or a panic. */
  lemma DecodeFailureRepliesInvalidRequest(msg: Msg, codec: Codec, up: Upstream, publish: Publisher)
    requires codec.unmarshalRequest(msg.data).Failure?
    ensures var r := Handler(msg, codec, up, publish);
            r.sent.None? && r.end == Completed &&
            r.published == (if publish(msg.reply, InvalidRequestReply).None?
                            then [Message(msg.reply, InvalidRequestReply)] else [])
  {
  }

  /** A request that `http.NewRequest` refuses is dropped: nothing is
      published and no call is made, so the client waits for its timeout. */
  lemma ConstructionFailurePublishesNothing(msg: Msg, codec: Codec, up: Upstream, publish: Publisher)
    requires codec.unmarshalRequest(msg.data).Success?
    requires var env := codec.unmarshalRequest(msg.data).value;
             up.newRequest(env.httpMethod, env.url).Some?
    ensures Handler(msg, codec, up, publish) == Effect(None, [], Completed)
  {
  }

  /** The call made upstream carries the decoded method, URL and body, and
      each envelope header name with its one value. */
  lemma CallCarriesEnvelope(msg: Msg, codec: Codec, up: Upstream, publish: Publisher)
    ensures var r := Handler(msg, codec, up, publish);
            r.sent.Some? <==>
              (codec.unmarshalRequest(msg.data).Success? &&
               up.newRequest(codec.unmarshalRequest(msg.data).value.httpMethod,
                             codec.unmarshalRequest(msg.data).value.url).None?)
    ensures var r := Handler(msg, codec, up, publish);
            r.sent.Some? ==>
              var env := codec.unmarshalRequest(msg.data).value;
              r.sent.value.httpMethod == env.httpMethod &&
              r.sent.value.url == env.url &&
              r.sent.value.body == env.body &&
              IsSingleValued(r.sent.value.header) &&
              FirstValues(r.sent.value.header) == env.header
  {
  }

  /** A successful upstream call is answered by exactly one reply: the
      envelope of its status code, first-valued header and body. */
  lemma UpstreamSuccessRepliesOnce(msg: Msg, codec: Codec, up: Upstream, publish: Publisher)
    requires Prepare(msg, codec, up, publish).Success?
    requires var res := up.do(Prepare(msg, codec, up, publish).value);
             res.err.None? && res.resp.Some? && !HasEmptyList(res.resp.value.header)
    requires var u := up.do(Prepare(msg, codec, up, publish).value).resp.value;
             publish(msg.reply, ResponsePayload(codec, u)).None?
    ensures var u := up.do(Prepare(msg, codec, up, publish).value).resp.value;
            var r := Handler(msg, codec, up, publish);
            r.published == [Message(msg.reply, ResponsePayload(codec, u))] && r.end == Completed
    ensures var u := up.do(Prepare(msg, codec, up, publish).value).resp.value;
            ResponsesRoundTrip(codec) &&
            codec.marshalResponse(ResponseEnvelope(u.statusCode, FirstValues(u.header), u.body.data)).Success? ==>
              codec.unmarshalResponse(ResponsePayload(codec, u)) ==
                Success(ResponseEnvelope(u.statusCode, FirstValues(u.header), u.body.data))
  {
  }

  /** As written, a failed upstream call that returns no response (the usual
      case) publishes `failed to make request` and then panics on the nil
      response. */
  lemma UpstreamFailureDereferencesNil(msg: Msg, codec: Codec, up: Upstream, publish: Publisher)
    requires Prepare(msg, codec, up, publish).Success?
    requires var res := up.do(Prepare(msg, codec, up, publish).value);
             res.err.Some? && res.resp.None?
    requires publish(msg.reply, FailedRequestReply).None?
    ensures var r := Handler(msg, codec, up, publish);
            r.published == [Message(msg.reply, FailedRequestReply)] &&
            r.end == Panicked(NilDereference)
  {
  }

  /** As written, a failed upstream call that still returns a response (as
      `Do` does when a redirect policy fails) is answered twice: the error,
      then the response. */
  lemma UpstreamFailureWithResponseRepliesTwice(msg: Msg, codec: Codec, up: Upstream, publish: Publisher)
    requires Prepare(msg, codec, up, publish).Success?
    requires var res := up.do(Prepare(msg, codec, up, publish).value);
             res.err.Some? && res.resp.Some? && !HasEmptyList(res.resp.value.header)
    requires var u := up.do(Prepare(msg, codec, up, publish).value).resp.value;
             publish(msg.reply, FailedRequestReply).None? &&
             publish(msg.reply, ResponsePayload(codec, u)).None?
    ensures var u := up.do(Prepare(msg, codec, up, publish).value).resp.value;
            var r := Handler(msg, codec, up, publish);
            r.published == [Message(msg.reply, FailedRequestReply),
                            Message(msg.reply, ResponsePayload(codec, u))] &&
            r.end == Completed
  {
  }

  /** With the `return` restored, a failed upstream call is answered by the
      error alone and the response is never touched. */
  lemma GuardedUpstreamFailureStops(msg: Msg, codec: Codec, up: Upstream, publish: Publisher)
    requires Prepare(msg, codec, up, publish).Success?
    requires up.do(Prepare(msg, codec, up, publish).value).err.Some?
    ensures var r := GuardedHandler(msg, codec, up, publish);
            r.published == Posted(publish, msg.reply, FailedRequestReply) &&
            (r.end == Completed <==> publish(msg.reply, FailedRequestReply).None?) &&
            r.end != Panicked(NilDereference)
  {
  }

  /** With the `return` restored, and `Do` keeping Go's convention, the
      handler never dereferences a nil response. */
  lemma GuardedNeverDereferencesNil(msg: Msg, codec: Codec, up: Upstream, publish: Publisher)
    requires DoKeepsContract(up)
    ensures GuardedHandler(msg, codec, up, publish).end != Panicked(NilDereference)
  {
  }

  /** The restored `return` changes nothing unless the upstream call
      reports an error. */
  lemma GuardedAgreesUnlessCallFails(msg: Msg, codec: Codec, up: Upstream, publish: Publisher)
    requires Prepare(msg, codec, up, publish).Success? ==>
               up.do(Prepare(msg, codec, up, publish).value).err.None?
    ensures GuardedHandler(msg, codec, up, publish) == Handler(msg, codec, up, publish)
  {
  }

  /** The restored `return` comes after the upstream call: both handlers
      make the same call, or none. */
  lemma GuardedMakesSameCall(msg: Msg, codec: Codec, up: Upstream, publish: Publisher)
    ensures GuardedHandler(msg, codec, up, publish).sent == Handler(msg, codec, up, publish).sent
  {
  }
}
