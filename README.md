# roadrunner-php/centrifugo, modelled in Dafny

The library connects a PHP application to the Centrifugo real-time server. It has two
halves, and both are modelled here.

**Proxy half.** Centrifugo forwards client events (connect, refresh, subscribe, publish,
RPC) to RoadRunner. The library:

- decodes each worker payload into a typed request;
- lets the application attach attributes to the request;
- answers with exactly one protobuf message of the request's own type.

The answer carries a result mapped from the application's response object, or an error,
or a disconnect.

**Server API half.** `RPCCentrifugApi` sends publish, broadcast, subscribe and the other
server commands over RoadRunner RPC. It turns an error in the reply into an exception.

The repository ships two copies of the proxy half, and both are modelled:

- **namespaced layout** (`src/Request/…`): decodes JSON with `JSON_THROW_ON_ERROR`;
- **flat layout** (`src/RequestFactory.php`, `src/ConnectRequest.php`, …): decodes JSON
  without it.

The model works on values and on a few classes:

- **PHP values** (`php.dfy`):
  - `PhpValue` is what `json_decode($s, true)` yields.
  - PHP arrays are ordered key/value lists.
  - `$a[$k] = $v` is `Put`, and a `foreach` of such writes is `PutAll`.
  - `??` is `Coalesce`, and `(array)` is `ToArray`.
  - String truthiness (`""` and `"0"` are false) is `Falsy`.
- **Collaborators as parameters.** The JSON codec (`json.dfy`), the protobuf codec
  (`proxy_dto.dfy`) and the server's answers are all parameters. Every proof therefore
  holds for every codec.
- **JSON encoding:**
  - `json_encode` under `JSON_THROW_ON_ERROR` either fails or yields text.
  - Plain `json_encode` yields text, or `false`. A protobuf string setter stores that
    `false` as `""`.
- **Requests** (`requests.dfy`): one datatype, with a variant per request class and its
  readonly fields. `getData()` is `Requests.GetData`.
- **Stateful parts are classes:**
  - the RoadRunner worker connection (`Transport.Worker`): a scripted inbox of
    `waitPayload()` outcomes, and the list of payloads sent;
  - a request's copy-on-write attributes (`AbstractRequest.ProxyRequest`);
  - `CentrifugoWorker`;
  - the RPC connection (`AdminApi.RpcTransport`), which records the calls made;
  - the API client (`AdminApi.CentrifugApi`).
- **Loops become methods with invariants**, each proved against the function that
  specifies it:
  - the `foreach` of `mapSubscriptions`;
  - the `foreach` of `presence()`;
  - the `foreach` of `channels()`.
- **`\assert(...)` is a parameter.** The body assertion in `createFromPayload` is the
  parameter `assertions`: when it is true, a failed assertion is the error `EmptyBody`;
  when it is false, the assertion is inert.

## Model

| member | source | states |
|---|---|---|
| RequestTypes.From | src/Request/RequestType.php:11-15 | `RequestType::from` accepts exactly the five tags `connect`, `refresh`, `publish`, `subscribe`, `rpc` and returns the case carrying that tag |
| RequestTypes.TagBijection | src/Request/RequestType.php:11-15 | the tags are pairwise distinct and `from` inverts the tag of every case |
| RequestTypes.CreateFrom | src/Request/RequestType.php:17-29 | `createFrom` maps each request class to its own case, in both directions |
| FlatRequestTypes.From | src/RequestType.php:9-13 | the flat enum accepts a tag exactly when some case carries it |
| FlatRequestTypes.Namespaced | src/RequestType.php:9-13 | each flat case carries the same tag as a namespaced case |
| FlatRequestTypes.SameTagsAsNamespaced | src/RequestType.php:9-13 | the flat and namespaced enums accept the same tags and agree on the case; flat tags are distinct |
| RequestFactory.RawTag | src/Request/RequestFactory.php:33 | `$headers['type'][0] ?? 'unknown'`: element 0 of a `type` list when present and non-null, `'unknown'` otherwise; a `type` string gives its first character, `'unknown'` when empty; never null |
| RequestFactory.StringTypeIsUnsupported | src/Request/RequestFactory.php:33-39 | a `type` header sent as a plain string is never a recognised tag |
| RequestFactory.TypeOf | src/Request/RequestFactory.php:35-39 | the tag is accepted exactly when it is one of the five tag strings; a non-string tag is rejected |
| RequestFactory.RecognisedTagComesFromArray | src/Request/RequestFactory.php:32-36 | a recognised tag can only come from a header that decoded to an array |
| RequestFactory.Field | src/Request/RequestFactory.php:70 | a JSON sub-field is `[]` when falsy, its `(array)` decoding otherwise, and a JSON error when the text is invalid |
| RequestFactory.Unmarshal | src/Request/RequestFactory.php:179-188 | `mergeFromString` yields the decoded message or the decode error |
| RequestFactory.CreateConnect | src/Request/RequestFactory.php:57-76 | a body the protobuf decoder rejects raises; an invalid `data` JSON raises; otherwise the request holds the message's scalars, the decoded `data`, the name, the version, the channels and the headers |
| RequestFactory.CreateRefresh | src/Request/RequestFactory.php:83-97 | a body the decoder rejects raises; an invalid `meta` JSON raises; otherwise the request holds the message's scalars, the decoded `meta` and the headers |
| RequestFactory.CreateSubscribe | src/Request/RequestFactory.php:104-121 | a body the decoder rejects raises; an invalid `meta` or `data` JSON raises; otherwise the request holds the message's scalars, both decoded fields and the headers |
| RequestFactory.CreatePublish | src/Request/RequestFactory.php:128-144 | a body the decoder rejects raises; an invalid `meta` or `data` JSON raises; otherwise the request holds the message's scalars, both decoded fields and the headers |
| RequestFactory.CreateRPC | src/Request/RequestFactory.php:151-167 | a body the decoder rejects raises; an invalid `meta` or `data` JSON raises; otherwise the request holds the message's scalars, the method name, both decoded fields and the headers |
| RequestFactory.GetDataReadsDecodedData | src/Request/Subscribe.php:34-37 | `getData()` of a built subscribe or RPC request is the message's `data` field, JSON-decoded |
| RequestFactory.Create | src/Request/RequestFactory.php:43-49 | the `match` builds a request of exactly the given type carrying the headers; a body its decoder rejects raises the body error; any other failure is a sub-field's JSON error |
| RequestFactory.CreateFromPayload | src/Request/RequestFactory.php:29-50 | an invalid header raises a JSON error; an unknown tag raises the unsupported-type error naming the tag; an empty body fails the assertion; otherwise the result is the typed builder's on the body and the decoded header map, so a body the decoder rejects raises the body error; a built request has the tag's type and carries the decoded header unchanged |
| RequestFactory.CreateFromPayloadInverts | src/Request/RequestFactory.php:29-167 | a payload whose header's `type` list has the request's tag at element 0, and whose body encodes the request, decodes back to exactly that request, for each of the five kinds |
| FlatRequestFactory.TypeOf | src/RequestFactory.php:31-37 | the flat factory accepts exactly the tags the namespaced one accepts, with the same type |
| FlatRequestFactory.CreateConnect | src/RequestFactory.php:54-73 | a body the decoder rejects raises; otherwise the request holds the message's scalars, `data` decoded without the error flag, the name, the version, the channels and the headers |
| FlatRequestFactory.CreateRefresh | src/RequestFactory.php:79-93 | a body the decoder rejects raises; otherwise the request holds the message's scalars, `meta` decoded without the error flag and the headers |
| FlatRequestFactory.CreateSubscribe | src/RequestFactory.php:99-116 | a body the decoder rejects raises; otherwise the request holds the message's scalars, `meta` and `data` decoded without the error flag and the headers |
| FlatRequestFactory.GetDataReadsDecodedData | src/SubscribeRequest.php:33-36 | a flat subscribe request is built exactly when the body decodes, and its `getData()` is the leniently decoded `data` field |
| FlatRequestFactory.CreatePublish | src/RequestFactory.php:122-138 | a body the decoder rejects raises; otherwise the request holds the message's scalars, `meta` and `data` decoded without the error flag and the headers |
| FlatRequestFactory.CreateRPC | src/RequestFactory.php:144-160 | a body the decoder rejects raises; otherwise the request holds the message's scalars, the method name, `meta` and `data` decoded without the error flag and the headers |
| FlatRequestFactory.Create | src/RequestFactory.php:41-47 | fails exactly when the body does not decode, with the body error; a built request has the flat case's type and the headers |
| FlatRequestFactory.InvalidFieldReadsEmpty | src/RequestFactory.php:67 | invalid JSON in a sub-field does not raise: the field reads as `[]` in the built request, for every kind and field |
| FlatRequestFactory.CreateFromPayload | src/RequestFactory.php:27-48 | it never fails on JSON: an invalid header gives the unsupported type `'unknown'`; an unknown tag raises the unsupported-type error naming the tag; an empty body fails the assertion; otherwise the result is the flat builder's on the body and the decoded header map |
| FlatRequestFactory.FlatExtendsNamespaced | src/RequestFactory.php:27-181 | where the namespaced factory succeeds the flat one builds the same request; a JSON error in the header becomes an unsupported `'unknown'`, one in a sub-field becomes success; other failures coincide |
| Php.Get | src/AbstractRequest.php:31 | a key's lookup succeeds exactly when the array has the key, and yields the value stored under it (the only one when keys are distinct) |
| Php.Put | src/AbstractRequest.php:37 | writing an existing key keeps the key order and overwrites in place; writing a new key appends it; other entries are untouched |
| Php.GetPut | src/AbstractRequest.php:37 | after `$a[$k] = $v`, `$a[$k]` reads `$v` |
| Php.GetPutOther | src/AbstractRequest.php:37 | `$a[$k] = $v` leaves every other key's value unchanged |
| Php.PutHasKey | src/AbstractRequest.php:37 | after `$a[$k] = $v` the keys are the old keys and `$k` |
| Php.PutAllKeys | src/RPCCentrifugApi.php:190-197 | the array a `foreach` of writes builds has exactly the keys written |
| Php.PutAllUniqueKeys | src/RPCCentrifugApi.php:190-197 | the array a `foreach` of writes builds never holds a key twice |
| Php.PutAllUnique | src/RPCCentrifugApi.php:190-197 | writing entries with distinct keys builds exactly those entries, in order |
| Json.DecodeField | src/Request/RequestFactory.php:70 | `$s ? (array)json_decode($s, …, JSON_THROW_ON_ERROR) : []`: `[]` for falsy text, otherwise the decoded array or a JSON error |
| Json.DecodeFieldLenient | src/RequestFactory.php:67 | the same without the throw flag: invalid text reads as `[]` |
| Json.EncodeField | src/Request/Connect.php:66-68 | an empty array leaves the field `""`; otherwise its strict JSON text; the request decoder reads the field back as the array |
| Json.EncodeFieldLenient | src/ConnectRequest.php:56-58 | the same with plain `json_encode`: a failure leaves `""` |
| AbstractRequest.Envelope | src/AbstractRequest.php:70-77 | the payload sent carries the serialised message as body and no header |
| AbstractRequest.ProxyRequest.constructor | src/AbstractRequest.php:16-21 | a request starts with no attributes |
| AbstractRequest.ProxyRequest.GetAttribute | src/AbstractRequest.php:29-32 | the stored value of a name when it is not null, otherwise the default |
| AbstractRequest.ProxyRequest.WithAttribute | src/AbstractRequest.php:34-40 | a fresh clone that reads the new value back under the name and agrees on every other name, while the original is unchanged |
| AbstractRequest.ProxyRequest.ResponseObject | src/Request/Connect.php:89-92 | a fresh, empty response message of the request's own type |
| AbstractRequest.ProxyRequest.SendResponse | src/AbstractRequest.php:70-77 | exactly one payload is sent: the serialised message |
| AbstractRequest.ProxyRequest.Error | src/AbstractRequest.php:47-55 | sends exactly one message of the request's type whose only field is the error with the given code, message and flag |
| AbstractRequest.ProxyRequest.Disconnect | src/AbstractRequest.php:57-65 | sends exactly one message of the request's type whose only field is the disconnect with the given code, reason and flag |
| AbstractRequest.ErrorReply | src/AbstractRequest.php:47-55 | the error message has the request's type and exactly its `error` field set |
| AbstractRequest.DisconnectReply | src/AbstractRequest.php:57-65 | the disconnect message has the request's type and exactly its `disconnect` field set |
| AbstractRequest.ResultReply | src/Request/Connect.php:42-52 | a result message has the request's type and exactly its `result` field set |
| ProxyDto.NewResponse | src/Request/Subscribe.php:81-84 | a new response message has no field set |
| ProxyDto.SettersDoNotExclude | src/AbstractRequest.php:47-65 | the message type does not itself keep the one-field rule: two setters set two fields, so only the fresh message per reply keeps it |
| SubscribeOptions.ParseExpiresAt | src/Request/Connect.php:174-179 | a date/time becomes its timestamp; seconds are kept |
| SubscribeOptions.ExpireSeconds | src/Request/Connect.php:62-64 | an absent expiry is the unset wire value 0; a present one is parsed |
| SubscribeOptions.ParseExpiresAtInstant | src/Request/Connect.php:174-179 | a date/time and its timestamp give the same wire value |
| SubscribeOptions.Wrap | src/Request/Connect.php:132-138 | a set flag becomes a `BoolValue` holding it; null leaves the field unset |
| SubscribeOptions.MapSubscribeOption | src/Request/Connect.php:128-172 | each of the five override flags keeps its tri-state, and reading the wire override back gives the payload override |
| SubscribeOptions.MapSubscribeOptionBijective | src/Request/Subscribe.php:86-130 | the override mapping is a bijection: onto every wire override, and no two overrides collide |
| Connect.MapSubscription | src/Request/Connect.php:104-122 | one subscription maps to its parsed expiry, its JSON data and info, and its override; it fails exactly when an encoding does |
| Connect.Subscriptions | src/Request/Connect.php:99-126 | the mapped subscriptions keep every name and the order and map each entry, or the JSON error when any entry fails |
| Connect.MapSubscriptions | src/Request/Connect.php:99-126 | the `foreach` computes exactly `Subscriptions` |
| Connect.MapResponse | src/Request/Connect.php:57-87 | user and channels copied; expiry parsed; data, info and meta are `""` when empty and JSON otherwise; subscriptions mapped; it fails exactly when some encoding fails |
| Connect.MapResponseReadsBack | src/Request/Connect.php:57-126 | with round-tripping JSON, every array and every override of the response reads back unchanged from the result |
| Connect.Respond | src/Request/Connect.php:42-52 | on success sends exactly one connect message with only the mapped result set; on a JSON error sends nothing |
| Subscribe.MapResponse | src/Request/Subscribe.php:58-79 | info and data are `""` when empty and JSON otherwise; allow copied; override mapped; fails exactly when an encoding fails |
| Subscribe.MapDefaultResponse | src/Request/Subscribe.php:58-79 | the default response maps to the default result |
| Subscribe.MapResponseReadsBack | src/Request/Subscribe.php:58-79 | info and data read back unchanged when they round-trip |
| Subscribe.Respond | src/Request/Subscribe.php:43-53 | one subscribe message with only the result set, or nothing on a JSON error |
| Refresh.MapResponse | src/Request/Refresh.php:55-73 | expired copied, expiry parsed, info `""` when empty and JSON otherwise; fails exactly when info's encoding fails |
| Refresh.MapDefaultResponse | src/Request/Refresh.php:55-73 | the default response maps to the all-default result |
| Refresh.MapResponseInstant | src/Request/Refresh.php:55-73 | a date/time expiry maps to its timestamp |
| Refresh.MapResponseReadsBack | src/Request/Refresh.php:55-73 | info reads back unchanged when it round-trips |
| Refresh.Respond | src/Request/Refresh.php:35-45 | one refresh message with only the result set, or nothing on a JSON error |
| Publish.MapResponse | src/Request/Publish.php:57-68 | skip-history copied; data `""` when empty and JSON otherwise; fails exactly when data's encoding fails |
| Publish.MapDefaultResponse | src/Request/Publish.php:57-68 | the default response maps to the default result |
| Publish.MapResponseReadsBack | src/Request/Publish.php:57-68 | data reads back unchanged when it round-trips |
| Publish.Respond | src/Request/Publish.php:37-47 | one publish message with only the result set, or nothing on a JSON error |
| RPC.MapResponse | src/Request/RPC.php:53-58 | data is always the JSON text of the response data, empty array included, and `""` where plain `json_encode` fails |
| RPC.EmptyDataIsStillEncoded | src/Request/RPC.php:53-58 | unlike the other mappers, an empty array is still encoded |
| RPC.MapResponseReadsBack | src/Request/RPC.php:53-58 | data reads back unchanged when it round-trips |
| RPC.Respond | src/Request/RPC.php:40-51 | always sends exactly one RPC message with only the result set |
| FlatConnect.MapSubscription | src/ConnectRequest.php:93-111 | as the namespaced mapping, with a failed encoding leaving `""`; equal to it where that succeeds |
| FlatConnect.Subscriptions | src/ConnectRequest.php:88-115 | one mapped entry per subscription, same names and order; equal to the namespaced list where that succeeds |
| FlatConnect.MapSubscriptions | src/ConnectRequest.php:88-115 | the `foreach` computes exactly `Subscriptions` |
| FlatConnect.MapResponse | src/ConnectRequest.php:47-77 | as the namespaced `mapResponse` without failure; equal to it where that succeeds |
| FlatConnect.Respond | src/ConnectRequest.php:36-45 | always sends exactly one connect message with only the mapped result set |
| FlatSubscribe.MapResponse | src/SubscribeRequest.php:54-75 | as the namespaced mapping without failure; equal to it where that succeeds |
| FlatSubscribe.Respond | src/SubscribeRequest.php:42-52 | exactly one subscribe message with only the result set |
| FlatRefresh.MapResponse | src/RefreshRequest.php:45-63 | as the namespaced mapping without failure; equal to it where that succeeds |
| FlatRefresh.Respond | src/RefreshRequest.php:29-38 | exactly one refresh message with only the result set |
| CentrifugoWorker.Classify | src/CentrifugoWorker.php:23-35 | null for a null payload or one with falsy body and header; otherwise exactly the factory's request, or its error wrapped; a transport error wrapped; never anything else |
| CentrifugoWorker.GotRequestHasKnownTag | src/CentrifugoWorker.php:23-35 | a request reaches the application only from a payload whose header decodes to a recognised tag |
| CentrifugoWorker.CentrifugoWorker.WaitRequest | src/CentrifugoWorker.php:23-35 | consumes exactly one worker payload, returns its classification and sends nothing |
| AdminApi.CreateFromError | src/Exception/CentrifugApiResponseException.php:11-14 | the exception carries the error's message and code |
| AdminApi.CheckReply | src/RPCCentrifugApi.php:281-292 | a reply raises exactly when it has an error, with that error's message and code; otherwise it is returned unchanged |
| AdminApi.MethodName | src/RPCCentrifugApi.php:41-264 | every method name is `centrifuge.` followed by the operation; `centrifuge.Unsubscribe` is used exactly by unsubscribe and disconnect requests |
| AdminApi.MethodNamesCollideOnlyForDisconnect | src/RPCCentrifugApi.php:137-172 | two requests share a method name exactly when they are of the same operation, or each is an unsubscribe or a disconnect |
| AdminApi.OptTimestamp | src/RPCCentrifugApi.php:80-82 | a given date/time becomes its timestamp; none leaves the unset 0 |
| AdminApi.BuildPublish | src/RPCCentrifugApi.php:27-40 | channel, skip-history and tags set; data `""` when empty, otherwise its plain JSON text |
| AdminApi.BuildBroadcast | src/RPCCentrifugApi.php:44-57 | channels, skip-history and tags set; data `""` when empty, otherwise its plain JSON text |
| AdminApi.BuildRefresh | src/RPCCentrifugApi.php:61-83 | user and expired set; client, session and expiry only when given |
| AdminApi.BuildSubscribe | src/RPCCentrifugApi.php:87-119 | channel and user set; expiry, client and session only when given; data and info `""` when empty |
| AdminApi.BuildUnsubscribe | src/RPCCentrifugApi.php:123-136 | channel and user set; client and session only when given |
| AdminApi.BuildDisconnect | src/RPCCentrifugApi.php:140-171 | user and whitelist set; client and session only when given; the disconnect copied field by field exactly when given |
| AdminApi.BuildChannels | src/RPCCentrifugApi.php:221-226 | the pattern only when given |
| AdminApi.BuildBlockUser | src/RPCCentrifugApi.php:248-254 | user set; expiry only when given |
| AdminApi.BuiltDataReadsBack | src/RPCCentrifugApi.php:33-35 | omitting an empty `data` or `info` loses nothing: the field reads back as the array passed |
| AdminApi.ClientEntryReadsBack | src/RPCCentrifugApi.php:191-196 | a client's entry has exactly the keys `client`, `user`, `conn_info`, `chan_info`, each holding that field |
| AdminApi.PresenceEntries | src/RPCCentrifugApi.php:190-197 | one entry per client, keyed by its id, in order |
| AdminApi.ChannelEntries | src/RPCCentrifugApi.php:239-243 | one `num_clients` entry per channel, keyed by its name, in order |
| AdminApi.ReshapePresence | src/RPCCentrifugApi.php:180-199 | the `foreach` computes the PHP array the entries' writes build |
| AdminApi.ReshapeChannels | src/RPCCentrifugApi.php:234-245 | the `foreach` computes the PHP array the entries' writes build |
| AdminApi.PresenceShape | src/RPCCentrifugApi.php:187-197 | with distinct client ids the result is exactly one entry per id, in the reply's order |
| AdminApi.ChannelsShape | src/RPCCentrifugApi.php:236-243 | with distinct channel names the result is exactly one entry per channel, in order |
| AdminApi.PresenceStatsData | src/RPCCentrifugApi.php:213-218 | exactly `num_clients` and `num_users` of the result; a null result fails |
| AdminApi.RpcTransport.Call | src/RPCCentrifugApi.php:284 | records the call and returns the server's answer |
| AdminApi.CentrifugApi.Invoke | src/RPCCentrifugApi.php:281-292 | exactly one RPC call under the request's method name, then the error check |
| AdminApi.CentrifugApi.Publish | src/RPCCentrifugApi.php:27-42 | one `centrifuge.Publish` call with the built request; its error raised |
| AdminApi.CentrifugApi.Broadcast | src/RPCCentrifugApi.php:44-59 | one `centrifuge.Broadcast` call with the built request; its error raised |
| AdminApi.CentrifugApi.Refresh | src/RPCCentrifugApi.php:61-85 | one `centrifuge.Refresh` call with the built request; its error raised |
| AdminApi.CentrifugApi.Subscribe | src/RPCCentrifugApi.php:87-121 | one `centrifuge.Subscribe` call with the built request; its error raised |
| AdminApi.CentrifugApi.Unsubscribe | src/RPCCentrifugApi.php:123-138 | one `centrifuge.Unsubscribe` call with the built request; its error raised |
| AdminApi.CentrifugApi.Disconnect | src/RPCCentrifugApi.php:140-173 | one call with the built disconnect request, under `centrifuge.Unsubscribe` as written; its error raised |
| AdminApi.CentrifugApi.Presence | src/RPCCentrifugApi.php:175-200 | one `centrifuge.Presence` call; its error raised; a null result fails; otherwise the reshaped presence |
| AdminApi.CentrifugApi.PresenceStats | src/RPCCentrifugApi.php:202-219 | one `centrifuge.PresenceStats` call; its error raised; otherwise the two counts |
| AdminApi.CentrifugApi.Channels | src/RPCCentrifugApi.php:221-246 | one `centrifuge.Channels` call; its error raised; a null result fails; otherwise the reshaped channels |
| AdminApi.CentrifugApi.BlockUser | src/RPCCentrifugApi.php:248-257 | one `centrifuge.BlockUser` call with the built request; its error raised |
| AdminApi.CentrifugApi.UnblockUser | src/RPCCentrifugApi.php:259-265 | one `centrifuge.UnblockUser` call with the user; its error raised |

## Left out

- **Worker and RPC transports.** The RoadRunner worker and the goridge RPC connection are
  I/O. They are replaced by a scripted inbox (`Transport.Worker`) and a server-answer
  function (`AdminApi.RpcTransport`). Blocking and concurrency are not modelled. An
  exhausted inbox reads as the stop signal `null`.
- AdminApi.RpcTransport.Call: always returns the server's answer. A transport exception
  thrown by `$this->rpc->call` (`src/RPCCentrifugApi.php:284`) is not modelled.
- **JSON, protobuf and `DateTimeInterface`.** These are parameters: codec functions, and a
  timestamp per date/time. The byte formats they produce are not modelled.
- **Numeric-string keys.** PHP turns a key such as `"42"` into the integer 42 when writing
  an array. The model keeps every string key a string key. This affects
  `$data[$clientId]` and `$data[$channel]` in `presence()` and `channels()`. It also
  affects `$this->attributes[$name]` (`src/AbstractRequest.php:31`, `:37`): the model keys an
  attribute as the string `name`, so after `withAttribute("5", $v)` PHP's
  `getAttributes()` holds the integer key 5 where the model holds the string `"5"`.
- **Attribute initialisation.** `src/AbstractRequest.php:16` declares `$attributes` without
  an initialiser, so `getAttributes()` on a fresh request would fail on an uninitialised
  property. The model starts from `[]`, as the repository's unit tests expect.
- **Flat-layout Publish and RPC classes.** The flat factory builds `PublishRequest` and
  `RPCRequest`, but those classes are not part of this model. The flat factory builds
  those two requests with the namespaced request values.
- **Refresh `getData()`.** The interface declares it, but the refresh request classes do
  not define it, so `Requests.GetData` excludes refresh requests.
- **`RequestType::createFrom` default arm.** It rejects an unknown request class. Over the
  closed `Request` datatype that arm cannot be reached.
- `\assert($response instanceof $responseClass)` in `RPCCentrifugApi::call` is not
  modelled. The reply is one datatype, and a result of another operation's shape is read
  as an empty result.
- `getWorker()` and the readonly properties are not modelled as separate members: a
  model class's `const` fields play that role.
- `InvalidRequestTypeException`'s message text is modelled by
  `RequestFactory.UnsupportedTypeMessage`, but no property is proved about it.
- **Unused duplicate exception.** `CentrifugoApiResponseException` duplicates
  `CentrifugApiResponseException` and is not used by the client.
- **Tags.** Publish and broadcast tags are kept as a PHP array. The string type of their
  values is not checked.
