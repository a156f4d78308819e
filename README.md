# Tower subscription client and shared informer registry, in Dafny

This project models the two hand-written parts of the tower plugin and proves
what they promise.

1. The tower client (`plugin/tower/pkg/client/client.go`):
   - scheme selection for the query and push transports;
   - the request headers;
   - the login (`Auth`), which stores the session token;
   - the Start envelope and the set-up of a subscription;
   - the classification of one inbound envelope into a `Response`;
   - the one-shot stop function;
   - the subscription pump, which republishes responses until the first error
     or until it is stopped.
2. The shared informer registry (`plugin/tower/pkg/informer/factory.go`):
   - at most one informer per object type, created lazily;
   - `Start`, which starts each registered informer once;
   - `WaitForCacheSync`, the barrier over the started informers;
   - the key function `towerObjectKey`.

Files and modules:

- `wrappers.dfy` (`Wrappers`): `Option` and `Result`.
- `gofmt.dfy` (`GoFormat`): the behaviour of Go's `fmt` that the client's
  diagnostics depend on. It covers `Sprintf` of a format with no operands,
  `%v` of a byte slice, and `string([]byte)`.
- `protocol.dfy` (`Protocol`): the envelope, `Response`, `connectErrorMessage`
  and `readConnResponse`.
- `channels.dfy` (`Channels`): the stop channel, the delivery channel, the
  websocket connection and `closeChanFunc`. Go panics when a channel is closed
  twice or sent on after closing, so those operations require an open channel.
  Every caller must prove that it never triggers one.
- `pump.dfy` (`Pump`): `lookReadMessage` run as one sequential loop. The
  caller's `stopWatch()` call is a parameter giving the iteration at which it
  happens.
- `client.dfy` (`TowerClient`): the `Client` class with `setScheme`,
  `setHeader`, `Auth`, `newWebsocketConn` and `Subscription`.
- `interleaving.dfy` (`Interleaving`): `lookReadMessage` with its goroutines
  interleaved one channel operation at a time, under any schedule.
- `informer.dfy` (`Informer`): the `sharedInformerFactory` class.

Go strings are modelled as Dafny strings with one character per byte. Network
results, JSON decoding, URL parsing and identifier generation are parameters
of the members that use them: the model is given their outcomes.

Two points where the code's behaviour may be unexpected:

- `WaitForCacheSync` gives no entry at all for a registered type that was never
  started. It does not give `false` (factory.go:88-93).
- For the message types `start`, `data`, `error` and `complete`, the constants
  follow the subscriptions-transport-ws protocol. That protocol is the one the
  `graphql-ws` sub-protocol name identifies. The file that declares these
  constants is not part of this model.

## Model

| member | source | states |
|---|---|---|
| `Protocol.ConnectErrorMessage` | plugin/tower/pkg/client/client.go:233-240 | the response has no data and exactly one error, with the given text and code WebsocketConnectError |
| `Protocol.ReadConnResponse` | plugin/tower/pkg/client/client.go:208-231 | a decodable Data envelope yields the decoded response unchanged; every other outcome (read failure, Error, Complete, unknown type, undecodable Data) yields exactly one WebsocketConnectError; the Error message is the raw payload; the diagnostic text of each other branch (corrected reading of line 219, see Findings) |
| `Protocol.ReadConnResponseAsWritten` | plugin/tower/pkg/client/client.go:216-219 | as written, an Error envelope's message is its payload printed by Sprintf as a format |
| `Protocol.AsWrittenAgreesWithoutPercent` | plugin/tower/pkg/client/client.go:219 | the code as written and the corrected reading agree on every read, except an Error envelope whose payload contains `%` |
| `Protocol.ErrorPayloadIsReformatted` | plugin/tower/pkg/client/client.go:219 | for the Error payload `%d`, the code as written reports `%!d(MISSING)`, but the corrected reading reports `%d` |
| `GoFormat.PercentFreeFormatUnchanged` | plugin/tower/pkg/client/client.go:236 | Sprintf with no operands prints a format without `%` unchanged |
| `GoFormat.DoublePercentPrintsOne` | plugin/tower/pkg/client/client.go:236 | Sprintf with no operands prints `100%%` as `100%` |
| `GoFormat.VerbWithoutOperandPrintsMissing` | plugin/tower/pkg/client/client.go:236 | Sprintf with no operands prints `%d` as `%!d(MISSING)` |
| `Channels.Signal.Close` | plugin/tower/pkg/client/client.go:249 | closing the stop channel requires that it is open (Go panics otherwise), and leaves it closed |
| `Channels.CloseChanFunc` | plugin/tower/pkg/client/client.go:243-252 | afterwards the stop channel is closed; when it was already closed, nothing changes; it never closes a closed channel |
| `Channels.ResponseChan.Send` | plugin/tower/pkg/client/client.go:195 | a send requires an open delivery channel and appends exactly the response |
| `Channels.ResponseChan.Close` | plugin/tower/pkg/client/client.go:184 | closing requires an open delivery channel and keeps what was sent |
| `Channels.Conn.ReadJSON` | plugin/tower/pkg/client/client.go:212 | an open connection yields the peer's next envelope; once those run out, or after a close, every read fails with the end-of-stream error |
| `Channels.Conn.Close` | plugin/tower/pkg/client/client.go:185 | the connection becomes closed, and each call counts as one release |
| `Pump.Responses` | plugin/tower/pkg/client/client.go:189 | the pump's successive reads classify to one response per peer envelope, followed by an error response for the failed read that comes after them |
| `Pump.DeliveredIsPrefix` | plugin/tower/pkg/client/client.go:188-202 | what the loop publishes is exactly the read responses up to and including the first error response, cut off at the caller's stop |
| `Pump.DeliveredInReadOrder` | plugin/tower/pkg/client/client.go:188-202 | the published sequence is a prefix of the read sequence, in the same order, and no longer than the number of checks before the caller's stop |
| `Pump.ErrorResponseIsLast` | plugin/tower/pkg/client/client.go:195-199 | a published response with non-empty errors is the last one published |
| `Pump.FirstErrorIsPublished` | plugin/tower/pkg/client/client.go:195-199 | when the first error response comes before the caller's stop, it is published, and it is the last one |
| `Pump.DataThenErrorDeliversBoth` | plugin/tower/pkg/client/client.go:188-202 | a Data response followed by an error response yields exactly those two, the error last |
| `Pump.DeliveredCleanPrefix` | plugin/tower/pkg/client/client.go:188-202 | when no response before position n carries errors, a stop at check n publishes exactly those n responses, and an error response at position n is published as the last one |
| `Pump.Publish` | plugin/tower/pkg/client/client.go:193-199 | the select's default branch appends exactly the response to the delivery channel, and raises the stop signal iff the response carries errors |
| `Pump.LookReadMessage` | plugin/tower/pkg/client/client.go:183-206 | the delivery channel receives exactly the Delivered responses; the stop signal is raised once, by whoever comes first; the connection is then released once and the delivery channel closed |
| `TowerClient.SchemeFor` | plugin/tower/pkg/client/client.go:163-180 | the scheme is one of http, https, ws and wss; it is https or wss iff the input scheme was https or wss; it starts with ws iff the push transport is asked for |
| `TowerClient.SchemeForIdempotent` | plugin/tower/pkg/client/client.go:164-180 | applying setScheme twice with the same transport gives the same scheme as applying it once |
| `TowerClient.Client.SetScheme` | plugin/tower/pkg/client/client.go:164-180 | the in-place update leaves exactly SchemeFor of the old scheme |
| `TowerClient.Header.Set` | plugin/tower/pkg/client/client.go:151 | the key's value list becomes exactly the one value |
| `TowerClient.HeadersFor` | plugin/tower/pkg/client/client.go:150-161 | Content-Type and Accept are application/json; Authorization is the token when the token is non-empty, else it is left as it was; Sec-Websocket-Protocol is graphql-ws on the push transport, else it is left as it was; every other key is unchanged |
| `TowerClient.HeadersForIdempotent` | plugin/tower/pkg/client/client.go:150-161 | a second setHeader with the same token and transport changes nothing |
| `TowerClient.Client.SetHeader` | plugin/tower/pkg/client/client.go:150-161 | the header map afterwards is HeadersFor of the old map, the client's token and the transport |
| `TowerClient.AuthRequest` | plugin/tower/pkg/client/client.go:109-112 | the login request is the login mutation, with the credentials as its only variable, `data` |
| `TowerClient.AuthOutcome` | plugin/tower/pkg/client/client.go:108-130 | Auth succeeds iff the query succeeds, the response has no errors and the token decodes; each failure leaves the token unchanged; on success the token is the decoded `login.token` (a JSON null leaves it unchanged) |
| `TowerClient.Client.Auth` | plugin/tower/pkg/client/client.go:108-130 | the error returned and the token left are AuthOutcome of the login query's outcome and the old token |
| `TowerClient.StartEnvelope` | plugin/tower/pkg/client/client.go:48-56 | the envelope has the given identifier, type StartMsg and the serialized request as payload; it fails iff marshalling fails |
| `TowerClient.Client.NewWebsocketConn` | plugin/tower/pkg/client/client.go:132-148 | a URL parse failure or a dial failure is reported as such; otherwise the connection dialled uses the push scheme and the header HeadersFor gives with the sub-protocol |
| `TowerClient.Client.Subscription` | plugin/tower/pkg/client/client.go:45-72 | the outcome follows from the inputs alone: a marshal failure, then a parse or dial failure, is returned as such without any open connection; a write failure returns WriteMessageFailed with the envelope, after the dialled connection has been released exactly once; when every step succeeds, it returns the Start envelope it wrote, a fresh open delivery channel, an open stop signal and the dialled connection, open and unread |
| `Interleaving.AsWrittenStep` | plugin/tower/pkg/client/client.go:183-206 | one atomic step of the goroutines as written (and of closeChanFunc, lines 243-252): a panicked state stays put, closed channels stay closed, at most one response is sent and only by the reader, on an open channel, and a panic comes only from a send on or a close of a closed channel |
| `Interleaving.AsWrittenSendsOnClosedQueue` | plugin/tower/pkg/client/client.go:184-205 | as written, one schedule sends on the delivery channel after lookReadMessage closed it (a panic) |
| `Interleaving.AsWrittenClosesStopTwice` | plugin/tower/pkg/client/client.go:243-252 | as written, a stopWatch() racing the pump's own close of the stop channel closes it twice (a panic) |
| `Interleaving.FixedStep` | plugin/tower/pkg/client/client.go:183-206 | one atomic step of the corrected design, with the same guarantees; here a close-of-closed panic can only come from the delivery channel |
| `Interleaving.FixedStepKeepsInvariant` | plugin/tower/pkg/client/client.go:183-206 | each step of the corrected pump keeps its invariant: the delivery channel is closed iff the reader has finished, and only the last published response may carry errors |
| `Interleaving.FixedRunKeepsInvariant` | plugin/tower/pkg/client/client.go:183-206 | the corrected pump keeps that invariant along any schedule |
| `Interleaving.FixedNeverPanics` | plugin/tower/pkg/client/client.go:183-252 | the corrected pump never panics on any schedule, and of what it publishes only the last response may carry errors |
| `Informer.TowerObjectKey` | plugin/tower/pkg/informer/factory.go:135-141 | a tower object yields its ID and no error; anything else yields the unsupported-type error, with the value printed by `%s` after "type" and by `%v` after "object:" |
| `Informer.Launched` | plugin/tower/pkg/informer/factory.go:74-79 | a Start call launches exactly the registered types that were not already started |
| `Informer.MarkStarted` | plugin/tower/pkg/informer/factory.go:74-79 | after Start a type is started iff it was started before or is registered; no unregistered type becomes started |
| `Informer.StartOneMore` | plugin/tower/pkg/informer/factory.go:74-79 | each loop step of Start launches its type iff it was not started, and marks it started |
| `Informer.StartIdempotent` | plugin/tower/pkg/informer/factory.go:64-79 | a second Start with no new registrations launches nothing and changes no state |
| `Informer.StartKeepsStartedRegistered` | plugin/tower/pkg/informer/factory.go:74-79 | when started types are registered, Start keeps it so, and afterwards the started types are exactly the registered ones |
| `Informer.SharedInformerFactory.constructor` | plugin/tower/pkg/informer/factory.go:46-55 | the registry starts with empty maps, so the invariant "started types are registered" holds |
| `Informer.ResyncFor` | plugin/tower/pkg/informer/factory.go:124-127 | a new informer's resync period is the type's custom period when it has one, else the factory default |
| `Informer.SharedInformerFactory.InformerFor` | plugin/tower/pkg/informer/factory.go:114-133 | a registered type gets its existing handle and nothing changes; an unregistered one gets one new entry, for that type only, with resync customResync[type] if present, else defaultResync |
| `Informer.SharedInformerFactory.VM` | plugin/tower/pkg/informer/factory.go:105-107 | the informer of the VM type, lazily created and then stable |
| `Informer.SharedInformerFactory.Label` | plugin/tower/pkg/informer/factory.go:110-112 | the informer of the Label type, lazily created and then stable |
| `Informer.SharedInformerFactory.Start` | plugin/tower/pkg/informer/factory.go:70-80 | it returns the Launched set, the started map becomes MarkStarted of the old map, and the registry invariant is kept |
| `Informer.SharedInformerFactory.WaitForCacheSync` | plugin/tower/pkg/informer/factory.go:83-101 | the result's key set is exactly the started registered types, and each value is that informer's sync outcome; a registered but unstarted type is absent |
| `Informer.SharedOnce` | plugin/tower/pkg/informer/factory.go:105-122 | asking for the VM informer twice hands out the same handle; the first Start launches it and the second launches nothing |

## Findings

| source | as written | input that shows it | evidently intended | confidence | as-written member | corrected member |
|---|---|---|---|---|---|---|
| plugin/tower/pkg/client/client.go:219 | the Error envelope's payload is passed to `Sprintf` as the format string | an Error envelope whose payload is `%d` is reported as `%!d(MISSING)`; the payload `100%%` is reported as `100%` | the error message is the raw payload, as with `connectErrorMessage("%s", payload)` | high; not executed | `Protocol.ErrorPayloadIsReformatted` | `Protocol.ReadConnResponse` |
| plugin/tower/pkg/client/client.go:184-205 | the outer goroutine closes `respChan` as soon as the stop channel is closed, while the reader may have passed its stop check and not yet sent | the reader passes the stop check, then the consumer calls stopWatch(), then lookReadMessage releases the connection and closes `respChan`, then the reader's send panics | only the goroutine that sends closes the delivery channel, after its last send, and the send sits inside the select on the stop channel | high; not executed | `Interleaving.AsWrittenSendsOnClosedQueue` | `Interleaving.FixedNeverPanics` |
| plugin/tower/pkg/client/client.go:243-252 | closeChanFunc checks the channel and then closes it in two separate steps | the reader publishes an error response and finds the stop channel open; the consumer receives that response, calls stopWatch() and also finds it open; the reader closes the channel, then the consumer's close panics | the stop function is an atomic test-and-set (for instance `sync.Once`) | high; not executed | `Interleaving.AsWrittenClosesStopTwice` | `Interleaving.FixedNeverPanics` |

The sequential model in `Pump` uses the corrected `Protocol.ReadConnResponse`.
Each of its iterations runs atomically, so neither race can occur there.

## Left out

- `Query` is a network round trip and is outside the model. `Auth` receives
  the outcome of the login query as a parameter. The local steps of `Query`
  are its calls of `setScheme(r.URL, false)` and `setHeader(r.Header, false)`.
  Those are modelled by `SetScheme` and `SetHeader`.
- JSON is outside the model: `json.Marshal`, `json.Unmarshal` and
  `utils.LookupJsonRaw` are total functions given as parameters. So are
  `url.Parse`, the websocket dial, `conn.WriteJSON` and `uuid.NewUUID`.
  `u.String()` is modelled as the scheme, a colon and the rest of the URL.
- The text of the errors the client returns (`fmt.Errorf`) is outside the
  model. Each cause is one `ClientError` case that carries the underlying text.
- Goroutines, the `sync.Mutex` of the registry and `select` are concurrency.
  Each registry method and each pump iteration is treated as atomic.
  `Interleaving` is the exception: it models the pump's goroutines one channel
  operation at a time.
- The delivery channel's capacity (`responseChanLenth`, 10) is left out, and
  so are the blocking sends it causes. Sends never block in either model.
- Go's random map iteration order in `Start` and `WaitForCacheSync` is modelled
  by picking an arbitrary next key.
- `GoFormat.FormatNoOperands`: argument indexes such as `%[1]d` are not
  modelled exactly. `[` is treated as an ordinary verb, because Go's BADINDEX
  handling is left out. A verb that is a multi-byte character is treated as its
  first byte.
- `Informer.TowerObjectKey`: how Go prints an arbitrary value is given, not
  computed. The `Foreign` case carries the `%s` text and the `%v` text
  separately, because they differ for values that are not strings (`42`
  prints `%!s(int=42)` and `42`).
- `TowerClient.Header.Set`: Go's `Header.Set` canonicalises its key with
  `textproto.CanonicalMIMEHeaderKey`. The model stores the key as given. This
  makes no difference here, because the four keys the client sets are already
  in canonical form.
- `Channels.Conn.ReadJSON`: a read after a local `Close` fails with the same
  end-of-stream text as a read after the peer goes away. Go reports a different
  error in that case ("use of closed network connection"). Only the diagnostic
  text differs.
- The informer itself is an opaque handle. This covers
  `informer.NewSharedIndexInformer`, `NewReflectorBuilder`,
  `shareInformer.Run` and the blocking of `cache.WaitForCacheSync`.
  `WaitForCacheSync` receives each informer's sync outcome as a parameter.
  The reflector and its indexed store are not part of this model.
- `Subscription` starts `lookReadMessage` in a new goroutine
  (client.go:69). In the model, the caller runs `Pump.LookReadMessage` on the
  objects that `Subscription` returns.
- `TowerClient.SchemeFor`: the secure case is stated as "the result is https
  or wss", not as "the result ends in s". The weaker wording would not hold,
  because `ws` also ends in s.
- The generated informer and clientset wrappers are not part of this model.
  They have no logic of their own.
