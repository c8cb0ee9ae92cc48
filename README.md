# http-over-nats, modelled in Dafny

The system carries HTTP over NATS. The client side is `NATSHTTPTransport.RoundTrip`, an
`http.RoundTripper`. It packs an outgoing request into a `NATSHTTPRequest` record,
marshals it to JSON and sends it with a NATS request on the request subject. It then
unpacks the `NATSHTTPResponse` reply into an `*http.Response`. The server side is the
subscription handler that `startServer` registers. For each message it decodes the
request record and builds the real `*http.Request`. It performs the call with
`http.Client.Do` and publishes the response record, or an error payload, to the
message's reply subject.

The model is split into six modules:

- `Common` (common.dfy): `Option`, `Result`, bytes, collaborator errors, Go run-time panics,
  and the outcome of `io.ReadAll`.
- `Headers` (headers.dfy): collapsing an `http.Header` to one value per name, and
  rebuilding it with `Set`. The loops are methods, proved against the functions
  `FirstValues` and `SingleValued`. Lemmas give the round trips and show the collapse
  is lossy.
- `Envelope` (envelope.dfy): the two wire records, an abstract JSON `Codec`, and the two
  literal error payloads.
- `Client` (client.dfy): `RoundTrip` as a function of its collaborators' outcomes. A run
  records the collaborator calls in order, and then Go's `(*http.Response, error)` pair
  or a panic.
- `Server` (server.dfy): `Handler` states what the handler does as written. The
  imperative `Handle` does it step by step and appends publishes to the outbox of a
  `Connection` object. `GuardedHandler` is the handler with its missing `return`
  restored (see Findings).
- `Bridge` (bridge.dfy): client and server together. Given a codec that decodes what it
  encodes, and a request that `http.NewRequest` accepts, a request arrives upstream with
  its method, URL and body and the first value of each header name; a single-valued
  header arrives unchanged. A successful reply comes back as the upstream response, with
  the first value of each header name. Given a codec that decodes an error payload to the
  zero response record, an error payload reads as a status-0 response.

Collaborators are inputs. NATS `Request` is a function from subject, payload and timeout
to a reply or an error. `Publish` is the error a `Connection` reports for a subject and
payload. `http.NewRequest` is the error it reports for a method and URL. `Client.Do`
returns an optional response and an optional error. The JSON codec is four functions.
Lemmas that need the codec to decode what it encodes say so in their preconditions.

## Model

| member | source | states |
|---|---|---|
| `Headers.Collapse` | main.go:44-47 | Panics (index out of range) exactly when some name has an empty value list. Otherwise the result has exactly the header's names, and each name maps to the first of its values. |
| `Headers.Rebuild` | main.go:82-85 | The rebuilt header has exactly the envelope's names. Each name carries exactly one value, its envelope value, because `Set` replaces. |
| `Headers.CollapseThenRebuild` | main.go:122-125 | On a single-valued header, collapsing and then rebuilding gives back the original header. |
| `Headers.RebuildThenCollapse` | main.go:108-110 | Rebuilding an envelope header and collapsing it again gives back the envelope header, and the rebuilt header has no empty list. |
| `Headers.CollapseSeesOnlyFirstValues` | main.go:44-47 | Two headers collapse to the same map if and only if they have the same names and the same first value under each name. |
| `Headers.CollapseIsLossy` | main.go:44-47 | `X: [a, b]` collapses to `X: a`, and rebuilding that does not give back the original header. |
| `Headers.CollapseLosesExtraValues` | main.go:44-47 | Any header in which some name carries two or more values does not come back from collapsing and rebuilding. |
| `Headers.RebuildIsInjective` | main.go:82-85 | Two envelope headers rebuild to the same header if and only if they are equal. |
| `Client.RoundTrip` | main.go:42-92 | Collaborators are called at most once each, in source order: body read, marshal, NATS request, unmarshal. A returned pair holds exactly one of response and error. A response is returned only after the reply was decoded. |
| `Client.EmptyValueListPanics` | main.go:44-47 | An empty value list in the request header panics before any collaborator is called. |
| `Client.BodyReadErrorStopsFirst` | main.go:49-56 | A body-read error is returned with no response. Nothing is marshalled or sent. |
| `Client.EnvelopeCarriesRequest` | main.go:57-70 | A marshalled envelope holds the request's method, its URL string, its first-valued header, and the whole body read (empty for a nil body). The NATS request sends exactly the marshalled payload, on the configured subject, with the configured timeout. |
| `Client.MarshalErrorStopsBeforeRequest` | main.go:64-67 | A marshal error is returned with no response. Marshal is the last call, and no NATS request is made. |
| `Client.ExchangeErrorReturnsNoResponse` | main.go:70-79 | A NATS request error, or an unmarshal error on the reply, is returned as that same error with no response. |
| `Client.ResponseComesFromReply` | main.go:81-91 | A response is returned if and only if every step succeeded. It has the decoded envelope's status code and body. Its header has the envelope's names, one value each, and collapses back to the envelope header. |
| `Server.Connection.Publish` | main.go:134-136 | The publish error is the connection's answer for that subject and payload. The message is appended to the outbox only when there is no error. |
| `Server.Handler` | main.go:95-137 | Every publish goes to the message's reply subject. There are at most two publishes, and two only when `Do` returned both a response and an error. A nil-dereference panic happens only after a `Do` that returned no response. |
| `Server.Handle` | main.go:95-137 | Executed step by step, the handler appends exactly `Handler`'s publishes to the connection's outbox. It makes the same upstream call and ends the same way. |
| `Server.DecodeFailureRepliesInvalidRequest` | main.go:97-101 | A payload that does not decode gets one `invalid request` reply, or none when that publish fails (the error is ignored). No call is made, and there is no panic. |
| `Server.ConstructionFailurePublishesNothing` | main.go:103-107 | A request that `NewRequest` refuses is dropped. Nothing is published, no call is made, and there is no panic. |
| `Server.CallCarriesEnvelope` | main.go:104-113 | The upstream call is made if and only if decoding and construction succeed. It carries the envelope's method, URL and body, with each header name holding just its envelope value. |
| `Server.UpstreamSuccessRepliesOnce` | main.go:119-136 | A successful call gets exactly one reply. The reply is the marshalled envelope of the call's status code, first-valued header and body. With a round-tripping codec it decodes back to that envelope. |
| `Server.UpstreamFailureDereferencesNil` | main.go:113-119 | As written, a call that returns an error and no response publishes `failed to make request`, then panics on the nil response. |
| `Server.UpstreamFailureWithResponseRepliesTwice` | main.go:113-136 | As written, a call that returns both an error and a response publishes the error payload first and the response second. |
| `Server.GuardedHandler` | main.go:114-119 | With the `return` restored, every publish goes to the reply subject, and there is at most one. |
| `Server.GuardedUpstreamFailureStops` | main.go:114-119 | With the `return` restored, a failed call is answered by the error payload alone. The handler panics only if that publish fails, and never on a nil response. |
| `Server.GuardedNeverDereferencesNil` | main.go:113-119 | With the `return` restored, and `Do` returning a response whenever it returns no error, the handler never dereferences a nil response. |
| `Server.GuardedAgreesUnlessCallFails` | main.go:113-136 | The restored `return` changes nothing unless the upstream call reports an error. |
| `Server.GuardedMakesSameCall` | main.go:104-113 | The restored `return` does not change which upstream call is made. |
| `Bridge.RequestSurvivesTransport` | main.go:57-110 | With a round-tripping codec and a request that `NewRequest` accepts, the upstream call has the client request's method, URL and body, and its first value under each header name. A single-valued header arrives unchanged. The handler as written makes the same call. |
| `Bridge.ResponseSurvivesTransport` | main.go:76-134 | A successful upstream call, replied to and delivered to the client, becomes a response. It has the upstream status code and body, and the first upstream value under each header name. There the handler as written and the corrected one behave identically. |
| `Bridge.ErrorReplyReadsAsResponse` | main.go:76-91 | If the codec decodes an error payload to the zero response record, as `encoding/json` does with unknown fields, the client returns a status-0 response with no error. |

## Left out

- NATS itself is not modelled: the connection, `Subscribe`, message delivery and the
  request timeout. `Request` is an input function, and `Publish` is the error a
  `Connection` reports. Subscription failure (the panic at main.go:138-140) is not modelled.
- The JSON byte format is not modelled. The codec is four input functions. A lemma that needs
  a round trip, or a particular decoding of the error payloads, says so in its preconditions.
- `http.Header.Set` key canonicalisation is not modelled: header names are taken to be
  canonical already. With non-canonical names, `Set` would merge names that differ only
  in case, and the surviving value would depend on map iteration order.
- `http.NewRequest` is reduced to the error it reports. Its normalisation is not
  modelled (an empty method becomes `GET`, the URL is parsed), and the model's upstream
  request keeps the envelope's method and URL string. `req.URL.String()` is represented
  by the URL string the request carries.
- `Client.Do` is not modelled: it is an input function, and the timeout and wall-clock
  behaviour are not modelled. The Go convention that a nil error comes with a response
  is an explicit precondition (`DoKeepsContract`) only where a lemma needs it.
- Closing bodies (`defer resp.Body.Close()`) is not modelled. The only effect kept from
  that line is the nil dereference it performs when there is no response.
- A nil `[]byte` and an empty one are not distinguished. JSON marshals them differently
  (`null` versus `""`), but the codec is abstract.
- The response fields that `RoundTrip` leaves at their zero values are not modelled:
  protocol version, `Request`, content length.
- Not modelled, as process glue: the unused `subjectResp` field, the constructor
  `NewNATSHTTPTransport`, `main`, and the goroutine that runs the server.

## Findings

| source | as written | input that shows it | evidently intended | confidence | as-written member | corrected member |
|---|---|---|---|---|---|---|
| main.go:114-119 | After publishing `failed to make request`, the handler has no `return`. It goes on to `defer resp.Body.Close()` with a nil `resp`. | `Do` returns a nil response and an error (for example, connection refused), and the publish succeeds. The error payload is published, then the handler panics with a nil dereference. | Stop after publishing the error, as the decode-failure branch does. | high; not executed | `Server.UpstreamFailureDereferencesNil` | `Server.GuardedHandler` |

A second observation is not a code bug. The error payloads have none of the response
record's fields. A client whose codec ignores unknown fields therefore takes an error
reply for a response with status 0 (`Bridge.ErrorReplyReadsAsResponse`). Also, a request
that `http.NewRequest` refuses gets no reply at all, so the client waits for its timeout
(`Server.ConstructionFailurePublishesNothing`).
