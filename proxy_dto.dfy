/**
 * The proxy protocol's structured messages (the generated `DTO` classes),
 * as records whose unset fields hold the wire defaults ('', 0, false, [],
 * null), and the protobuf codec as a collaborator. Only the fields the core
 * reads or writes are modelled.
 */
module ProxyDto {
  import opened Wrappers
  import opened Json
  import opened RequestTypes

  // ----- request messages, as `mergeFromString` fills them -----

  datatype ConnectRequest = ConnectRequest(
    client: string := "", transport: string := "", protocol: string := "", encoding: string := "",
    name: string := "", version: string := "", data: string := "", channels: seq<string> := [])

  datatype RefreshRequest = RefreshRequest(
    client: string := "", transport: string := "", protocol: string := "", encoding: string := "",
    user: string := "", meta: string := "")

  datatype SubscribeRequest = SubscribeRequest(
    client: string := "", transport: string := "", protocol: string := "", encoding: string := "",
    user: string := "", channel: string := "", token: string := "", meta: string := "", data: string := "")

  datatype PublishRequest = PublishRequest(
    client: string := "", transport: string := "", protocol: string := "", encoding: string := "",
    user: string := "", channel: string := "", meta: string := "", data: string := "")

  datatype RPCRequest = RPCRequest(
    client: string := "", transport: string := "", protocol: string := "", encoding: string := "",
    user: string := "", methodName: string := "", meta: string := "", data: string := "")

  // ----- result messages -----

  /** `google.protobuf.BoolValue`: a present boolean; absence is a null field. */
  datatype BoolValue = BoolValue(value: bool)

  datatype SubscribeOptionOverride = SubscribeOptionOverride(
    presence: Option<BoolValue> := None,
    joinLeave: Option<BoolValue> := None,
    forcePushJoinLeave: Option<BoolValue> := None,
    forcePositioning: Option<BoolValue> := None,
    forceRecovery: Option<BoolValue> := None)

  datatype SubscribeOptions = SubscribeOptions(
    expireAt: int := 0, info: string := "", data: string := "",
    override: Option<SubscribeOptionOverride> := None)

  datatype ConnectResult = ConnectResult(
    user: string := "", expireAt: int := 0, data: string := "", info: string := "", meta: string := "",
    channels: seq<string> := [], subs: seq<(string, SubscribeOptions)> := [])

  datatype SubscribeResult = SubscribeResult(
    info: string := "", data: string := "", allow: seq<string> := [],
    override: Option<SubscribeOptionOverride> := None)

  datatype RefreshResult = RefreshResult(expired: bool := false, expireAt: int := 0, info: string := "")

  datatype PublishResult = PublishResult(data: string := "", skipHistory: bool := false)

  datatype RPCResult = RPCResult(data: string := "")

  /** The `result` of each kind's response message. */
  datatype ProxyResult =
    | ConnectOk(connect: ConnectResult)
    | RefreshOk(refresh: RefreshResult)
    | SubscribeOk(subscribe: SubscribeResult)
    | PublishOk(publish: PublishResult)
    | RPCOk(rpc: RPCResult)

  function ResultType(r: ProxyResult): RequestType {
    match r
    case ConnectOk(_) => RequestType.Connect
    case RefreshOk(_) => RequestType.Refresh
    case SubscribeOk(_) => RequestType.Subscribe
    case PublishOk(_) => RequestType.Publish
    case RPCOk(_) => RequestType.RPC
  }

  datatype Error = Error(code: int, message: string, temporary: bool)

  datatype Disconnect = Disconnect(code: int, reason: string, reconnect: bool)

  /**
   * `ConnectResponse`, `RefreshResponse`, ... of the proxy protocol: one
   * message type per request type, each with three optional sub-messages.
   */
  datatype ResponseMessage = ResponseMessage(
    messageType: RequestType,
    result: Option<ProxyResult>,
    error: Option<Error>,
    disconnect: Option<Disconnect>)

  /** `getResponseObject()`: a fresh response message of the request's type. */
  function NewResponse(t: RequestType): (m: ResponseMessage)
    ensures m.messageType == t && m.result == None && m.error == None && m.disconnect == None
  {
    ResponseMessage(t, None, None, None)
  }

  /** `setResult`; the result must be of the message's own type. */
  function SetResult(m: ResponseMessage, r: ProxyResult): ResponseMessage
    requires ResultType(r) == m.messageType
  {
    m.(result := Some(r))
  }

  /** `setError` */
  function SetError(m: ResponseMessage, e: Error): ResponseMessage {
    m.(error := Some(e))
  }

  /** `setDisconnect` */
  function SetDisconnect(m: ResponseMessage, d: Disconnect): ResponseMessage {
    m.(disconnect := Some(d))
  }

  /** What the protocol allows on the wire: exactly one of result, error, disconnect. */
  predicate ExactlyOneSet(m: ResponseMessage) {
    (if m.result.Some? then 1 else 0) + (if m.error.Some? then 1 else 0)
      + (if m.disconnect.Some? then 1 else 0) == 1
  }

  /**
   * Nothing in the message type enforces the protocol's rule: two setters on
   * one message set two fields. Only starting from a fresh message keeps it.
   */
  lemma SettersDoNotExclude(t: RequestType, e: Error, d: Disconnect)
    ensures !ExactlyOneSet(SetDisconnect(SetError(NewResponse(t), e), d))
  {
  }

  /**
   * The protobuf codec: `mergeFromString` for each request message (None
   * where it throws) and `serializeToString` for response messages.
   */
  datatype ProtoCodec = ProtoCodec(
    decodeConnect: string -> Option<ConnectRequest>,
    decodeRefresh: string -> Option<RefreshRequest>,
    decodeSubscribe: string -> Option<SubscribeRequest>,
    decodePublish: string -> Option<PublishRequest>,
    decodeRPC: string -> Option<RPCRequest>,
    serialize: ResponseMessage -> string)

  /** The two foreign libraries the core calls into. */
  datatype Codecs = Codecs(json: JsonCodec, proto: ProtoCodec)
}
