/**
 * `RPCCentrifugApi`: the server API client. Each operation builds one
 * service request, makes one RPC call under the operation's method name and
 * checks the reply's error envelope; `presence`, `presenceStats` and
 * `channels` reshape the reply into PHP arrays.
 */
module AdminApi {
  import opened Wrappers
  import opened Php
  import opened Json
  import opened Payload

  // ----- service request messages (unset fields hold the wire defaults) -----

  datatype ServiceDisconnect = ServiceDisconnect(code: int, reason: string, reconnect: bool)

  datatype ServiceRequest =
    | PublishRequest(channel: string := "", data: string := "", skipHistory: bool := false, tags: PhpArray := [])
    | BroadcastRequest(channels: seq<string> := [], data: string := "", skipHistory: bool := false, tags: PhpArray := [])
    | RefreshRequest(user: string := "", client: string := "", session: string := "", expired: bool := false,
                     expireAt: int := 0)
    | SubscribeRequest(channel: string := "", user: string := "", expireAt: int := 0, info: string := "",
                       client: string := "", data: string := "", session: string := "")
    | UnsubscribeRequest(channel: string := "", user: string := "", client: string := "", session: string := "")
    | DisconnectRequest(user: string := "", client: string := "", whitelist: seq<string> := [],
                        session: string := "", disconnect: Option<ServiceDisconnect> := None)
    | PresenceRequest(channel: string := "")
    | PresenceStatsRequest(channel: string := "")
    | ChannelsRequest(pattern: string := "")
    | BlockUserRequest(user: string := "", expireAt: int := 0)
    | UnblockUserRequest(user: string := "")

  // ----- replies -----

  datatype ServiceError = ServiceError(code: int, message: string)

  datatype ClientInfo = ClientInfo(client: string, user: string, connInfo: string, chanInfo: string)

  datatype ChannelInfo = ChannelInfo(numClients: int)

  /** The `result` sub-message of a reply; NoResult where it is unset (null). */
  datatype ReplyResult =
    | NoResult
    | PresenceResult(presence: seq<(string, ClientInfo)>)
    | PresenceStatsResult(numClients: int, numUsers: int)
    | ChannelsResult(channels: seq<(string, ChannelInfo)>)

  /** A `...Response` message: an optional error and a result. */
  datatype Reply = Reply(error: Option<ServiceError>, result: ReplyResult)

  datatype ApiError =
    | ApiResponseException(message: string, code: int) // CentrifugApiResponseException
    | NullResult                                        // a member call on a null `getResult()`

  /** `CentrifugApiResponseException::createFromError`: message and code of the error. */
  function CreateFromError(e: ServiceError): (x: ApiError)
    ensures x == ApiResponseException(e.message, e.code)
  {
    ApiResponseException(e.message, e.code)
  }

  /**
   * The check in `call`: a reply with an error raises that error's message
   * and code; any other reply is returned unchanged.
   */
  function CheckReply(reply: Reply): (r: Result<Reply, ApiError>)
    ensures r.Failure? <==> reply.error.Some?
    ensures r.Failure? ==> r.error == ApiResponseException(reply.error.value.message, reply.error.value.code)
    ensures r.Success? ==> r.value == reply
  {
    if reply.error.Some? then Failure(CreateFromError(reply.error.value)) else Success(reply)
  }

  // ----- method names -----

  /**
   * The RPC method each operation calls. `disconnect` calls
   * `centrifuge.Unsubscribe`, as the source does.
   */
  function MethodName(r: ServiceRequest): (name: string)
    ensures |name| > 11 && name[..11] == "centrifuge."
    ensures name == "centrifuge.Unsubscribe" <==> r.UnsubscribeRequest? || r.DisconnectRequest?
  {
    match r
    case PublishRequest(_, _, _, _) => "centrifuge.Publish"
    case BroadcastRequest(_, _, _, _) => "centrifuge.Broadcast"
    case RefreshRequest(_, _, _, _, _) => "centrifuge.Refresh"
    case SubscribeRequest(_, _, _, _, _, _, _) => "centrifuge.Subscribe"
    case UnsubscribeRequest(_, _, _, _) => "centrifuge.Unsubscribe"
    case DisconnectRequest(_, _, _, _, _) => "centrifuge.Unsubscribe"
    case PresenceRequest(_) => "centrifuge.Presence"
    case PresenceStatsRequest(_) => "centrifuge.PresenceStats"
    case ChannelsRequest(_) => "centrifuge.Channels"
    case BlockUserRequest(_, _) => "centrifuge.BlockUser"
    case UnblockUserRequest(_) => "centrifuge.UnblockUser"
  }

  /** Two requests are for the same operation: the same message type. */
  predicate SameOperation(a: ServiceRequest, b: ServiceRequest) {
    || (a.PublishRequest? && b.PublishRequest?)
    || (a.BroadcastRequest? && b.BroadcastRequest?)
    || (a.RefreshRequest? && b.RefreshRequest?)
    || (a.SubscribeRequest? && b.SubscribeRequest?)
    || (a.UnsubscribeRequest? && b.UnsubscribeRequest?)
    || (a.DisconnectRequest? && b.DisconnectRequest?)
    || (a.PresenceRequest? && b.PresenceRequest?)
    || (a.PresenceStatsRequest? && b.PresenceStatsRequest?)
    || (a.ChannelsRequest? && b.ChannelsRequest?)
    || (a.BlockUserRequest? && b.BlockUserRequest?)
    || (a.UnblockUserRequest? && b.UnblockUserRequest?)
  }

  /**
   * Two requests share a method name exactly when they are for the same
   * operation, or both are `unsubscribe`/`disconnect`: `disconnect` shares
   * `centrifuge.Unsubscribe` with `unsubscribe`, and the server tells the
   * two apart only by the message it decodes.
   */
  lemma MethodNamesCollideOnlyForDisconnect(a: ServiceRequest, b: ServiceRequest)
    ensures MethodName(a) == MethodName(b) <==>
      || SameOperation(a, b)
      || ((a.DisconnectRequest? || a.UnsubscribeRequest?) && (b.DisconnectRequest? || b.UnsubscribeRequest?))
  {
  }

  // ----- the request builders -----

  function OptString(s: Option<string>): string {
    s.GetOr("")
  }

  function OptTimestamp(d: Option<DateTime>): (seconds: int)
    ensures d.Some? ==> seconds == d.value.timestamp
    ensures d.None? ==> seconds == 0
  {
    if d.Some? then d.value.timestamp else 0
  }

  /** `publish`: channel and skip_history always set; data encoded when non-empty; tags set when non-empty. */
  function BuildPublish(c: JsonCodec, channel: string, data: PhpArray, skipHistory: bool, tags: PhpArray): (r: ServiceRequest)
    ensures r.PublishRequest? && r.channel == channel && r.skipHistory == skipHistory && r.tags == tags
    ensures data == [] ==> r.data == ""
    ensures data != [] ==> r.data == EncodeLenient(c, data)
  {
    PublishRequest(channel := channel, skipHistory := skipHistory, data := EncodeFieldLenient(c, data), tags := tags)
  }

  /** `broadcast`: as `publish`, with a list of channels. */
  function BuildBroadcast(c: JsonCodec, channels: seq<string>, data: PhpArray, skipHistory: bool, tags: PhpArray): (r: ServiceRequest)
    ensures r.BroadcastRequest? && r.channels == channels && r.skipHistory == skipHistory && r.tags == tags
    ensures data == [] ==> r.data == ""
    ensures data != [] ==> r.data == EncodeLenient(c, data)
  {
    BroadcastRequest(channels := channels, skipHistory := skipHistory, data := EncodeFieldLenient(c, data), tags := tags)
  }

  /** `refresh`: user and expired always set; client, session and expire_at only when given. */
  function BuildRefresh(user: string, client: Option<string>, session: Option<string>, expired: bool,
                        expireAt: Option<DateTime>): (r: ServiceRequest)
    ensures r.RefreshRequest? && r.user == user && r.expired == expired
    ensures r.client == OptString(client) && r.session == OptString(session)
    ensures r.expireAt == OptTimestamp(expireAt)
  {
    RefreshRequest(user := user, expired := expired, client := OptString(client), session := OptString(session),
                   expireAt := OptTimestamp(expireAt))
  }

  /** `subscribe`: channel and user always set; the rest only when given or non-empty. */
  function BuildSubscribe(c: JsonCodec, channel: string, user: string, expireAt: Option<DateTime>, info: PhpArray,
                          client: Option<string>, data: PhpArray, session: Option<string>): (r: ServiceRequest)
    ensures r.SubscribeRequest? && r.channel == channel && r.user == user
    ensures r.expireAt == OptTimestamp(expireAt)
    ensures r.info == EncodeFieldLenient(c, info) && r.data == EncodeFieldLenient(c, data)
    ensures r.client == OptString(client) && r.session == OptString(session)
  {
    SubscribeRequest(channel := channel, user := user, expireAt := OptTimestamp(expireAt),
                     data := EncodeFieldLenient(c, data), info := EncodeFieldLenient(c, info),
                     client := OptString(client), session := OptString(session))
  }

  function BuildUnsubscribe(channel: string, user: string, client: Option<string>, session: Option<string>): (r: ServiceRequest)
    ensures r.UnsubscribeRequest? && r.channel == channel && r.user == user
    ensures r.client == OptString(client) && r.session == OptString(session)
  {
    UnsubscribeRequest(channel := channel, user := user, client := OptString(client), session := OptString(session))
  }

  /** `disconnect`: the payload `Disconnect` is copied field by field when given. */
  function BuildDisconnect(user: string, client: Option<string>, whitelist: seq<string>, session: Option<string>,
                           disconnect: Option<Disconnect>): (r: ServiceRequest)
    ensures r.DisconnectRequest? && r.user == user && r.whitelist == whitelist
    ensures r.client == OptString(client) && r.session == OptString(session)
    ensures r.disconnect.Some? <==> disconnect.Some?
    ensures disconnect.Some? ==>
      r.disconnect.value == ServiceDisconnect(disconnect.value.code, disconnect.value.reason, disconnect.value.reconnect)
  {
    DisconnectRequest(
      user := user, client := OptString(client), session := OptString(session), whitelist := whitelist,
      disconnect := if disconnect.Some? then
                      Some(ServiceDisconnect(disconnect.value.code, disconnect.value.reason, disconnect.value.reconnect))
                    else None)
  }

  function BuildChannels(pattern: Option<string>): (r: ServiceRequest)
    ensures r.ChannelsRequest? && r.pattern == OptString(pattern)
  {
    ChannelsRequest(pattern := OptString(pattern))
  }

  function BuildBlockUser(user: string, expireAt: Option<DateTime>): (r: ServiceRequest)
    ensures r.BlockUserRequest? && r.user == user && r.expireAt == OptTimestamp(expireAt)
  {
    BlockUserRequest(user := user, expireAt := OptTimestamp(expireAt))
  }

  /**
   * Leaving an empty `data` or `info` unset loses nothing: the server reads
   * the field back as the array the caller passed, whenever that array is
   * empty or round-trips through the codec.
   */
  lemma BuiltDataReadsBack(c: JsonCodec, data: PhpArray, info: PhpArray, channel: string, user: string,
                           channels: seq<string>, skipHistory: bool, tags: PhpArray)
    requires data == [] || RoundTrips(c, data)
    requires info == [] || RoundTrips(c, info)
    ensures DecodeFieldLenient(c, BuildPublish(c, channel, data, skipHistory, tags).data) == data
    ensures DecodeFieldLenient(c, BuildBroadcast(c, channels, data, skipHistory, tags).data) == data
    ensures var s := BuildSubscribe(c, channel, user, None, info, None, data, None);
      DecodeFieldLenient(c, s.data) == data && DecodeFieldLenient(c, s.info) == info
  {
  }

  // ----- reshaping replies -----

  /** The array one client's presence becomes. */
  function ClientEntry(info: ClientInfo): PhpValue {
    PArr([(StrKey("client"), PStr(info.client)), (StrKey("user"), PStr(info.user)),
          (StrKey("conn_info"), PStr(info.connInfo)), (StrKey("chan_info"), PStr(info.chanInfo))])
  }

  /**
   * A client's entry has exactly the four keys, and each reads back the
   * field of the reply it was copied from.
   */
  lemma ClientEntryReadsBack(info: ClientInfo)
    ensures var e := ClientEntry(info).entries;
      && UniqueKeys(e)
      && KeysOf(e) == [StrKey("client"), StrKey("user"), StrKey("conn_info"), StrKey("chan_info")]
      && Get(e, StrKey("client")) == Some(PStr(info.client))
      && Get(e, StrKey("user")) == Some(PStr(info.user))
      && Get(e, StrKey("conn_info")) == Some(PStr(info.connInfo))
      && Get(e, StrKey("chan_info")) == Some(PStr(info.chanInfo))
  {
    var e := ClientEntry(info).entries;
    assert UniqueKeys(e);
    assert e[2] == (StrKey("conn_info"), PStr(info.connInfo));
    assert e[3] == (StrKey("chan_info"), PStr(info.chanInfo));
  }

  function PresenceEntries(presence: seq<(string, ClientInfo)>): (e: PhpArray)
    ensures |e| == |presence|
    ensures forall i :: 0 <= i < |presence| ==> e[i] == (StrKey(presence[i].0), ClientEntry(presence[i].1))
  {
    seq(|presence|, i requires 0 <= i < |presence| => (StrKey(presence[i].0), ClientEntry(presence[i].1)))
  }

  /** The array one channel becomes. */
  function ChannelEntry(info: ChannelInfo): PhpValue {
    PArr([(StrKey("num_clients"), PInt(info.numClients))])
  }

  function ChannelEntries(channels: seq<(string, ChannelInfo)>): (e: PhpArray)
    ensures |e| == |channels|
    ensures forall i :: 0 <= i < |channels| ==> e[i] == (StrKey(channels[i].0), ChannelEntry(channels[i].1))
  {
    seq(|channels|, i requires 0 <= i < |channels| => (StrKey(channels[i].0), ChannelEntry(channels[i].1)))
  }

  /** The `foreach` of `presence`: `$data[$clientId] = [...]` for each client. */
  method ReshapePresence(presence: seq<(string, ClientInfo)>) returns (data: PhpArray)
    ensures data == PutAll(PresenceEntries(presence))
  {
    ghost var entries := PresenceEntries(presence);
    data := [];
    var i := 0;
    while i < |presence|
      invariant 0 <= i <= |presence|
      invariant data == PutAll(entries[..i])
    {
      var (clientId, info) := presence[i];
      assert entries[..i + 1][..i] == entries[..i];
      data := Put(data, StrKey(clientId), ClientEntry(info));
      i := i + 1;
    }
    assert entries[..i] == entries;
  }

  /** The `foreach` of `channels`: `$data[$channel] = ['num_clients' => ...]` for each channel. */
  method ReshapeChannels(channels: seq<(string, ChannelInfo)>) returns (data: PhpArray)
    ensures data == PutAll(ChannelEntries(channels))
  {
    ghost var entries := ChannelEntries(channels);
    data := [];
    var i := 0;
    while i < |channels|
      invariant 0 <= i <= |channels|
      invariant data == PutAll(entries[..i])
    {
      var (name, info) := channels[i];
      assert entries[..i + 1][..i] == entries[..i];
      data := Put(data, StrKey(name), ChannelEntry(info));
      i := i + 1;
    }
    assert entries[..i] == entries;
  }

  /** The ids of a protobuf map are distinct. */
  predicate DistinctIds<T>(entries: seq<(string, T)>) {
    forall i, j :: 0 <= i < j < |entries| ==> entries[i].0 != entries[j].0
  }

  /**
   * `presence` returns one entry per client id, keyed by that id and in the
   * reply's order, holding exactly `client`, `user`, `conn_info` and
   * `chan_info` of that client.
   */
  lemma PresenceShape(presence: seq<(string, ClientInfo)>)
    requires DistinctIds(presence)
    ensures PutAll(PresenceEntries(presence)) == PresenceEntries(presence)
  {
    var e := PresenceEntries(presence);
    assert UniqueKeys(e) by {
      forall i, j | 0 <= i < j < |e| ensures e[i].0 != e[j].0 {
        assert e[i].0 == StrKey(presence[i].0) && e[j].0 == StrKey(presence[j].0);
      }
    }
    PutAllUnique(e);
  }

  /** `channels` returns one `{num_clients}` entry per channel, keyed by its name, in order. */
  lemma ChannelsShape(channels: seq<(string, ChannelInfo)>)
    requires DistinctIds(channels)
    ensures PutAll(ChannelEntries(channels)) == ChannelEntries(channels)
  {
    var e := ChannelEntries(channels);
    assert UniqueKeys(e) by {
      forall i, j | 0 <= i < j < |e| ensures e[i].0 != e[j].0 {
        assert e[i].0 == StrKey(channels[i].0) && e[j].0 == StrKey(channels[j].0);
      }
    }
    PutAllUnique(e);
  }

  /** `presenceStats`: exactly `num_clients` and `num_users` of the result. */
  function PresenceStatsData(result: ReplyResult): (r: Result<PhpArray, ApiError>)
    ensures result.PresenceStatsResult? ==>
      r == Success([(StrKey("num_clients"), PInt(result.numClients)), (StrKey("num_users"), PInt(result.numUsers))])
    ensures result.NoResult? ==> r == Failure(NullResult)
  {
    match result
    case PresenceStatsResult(numClients, numUsers) =>
      Success([(StrKey("num_clients"), PInt(numClients)), (StrKey("num_users"), PInt(numUsers))])
    case NoResult => Failure(NullResult)
    // a reply of another shape stands for an empty PresenceStatsResult
    case _ => Success([(StrKey("num_clients"), PInt(0)), (StrKey("num_users"), PInt(0))])
  }

  // ----- the transport and the client -----

  /** The goridge RPC connection (with the protobuf codec): records every call. */
  class RpcTransport {
    /** What the server answers to a method name and request. */
    const answer: (string, ServiceRequest) -> Reply
    var calls: seq<(string, ServiceRequest)>

    constructor (answer: (string, ServiceRequest) -> Reply)
      ensures this.answer == answer && calls == []
    {
      this.answer := answer;
      calls := [];
    }

    /** `$rpc->call($method, $request, $responseClass)`, under method name `name` */
    method Call(name: string, request: ServiceRequest) returns (reply: Reply)
      modifies this
      ensures calls == old(calls) + [(name, request)]
      ensures reply == answer(name, request)
    {
      calls := calls + [(name, request)];
      reply := answer(name, request);
    }
  }

  class CentrifugApi {
    const rpc: RpcTransport
    const json: JsonCodec

    constructor (rpc: RpcTransport, json: JsonCodec)
      ensures this.rpc == rpc && this.json == json
    {
      this.rpc := rpc;
      this.json := json;
    }

    /** `call`: exactly one RPC under the request's method name, then the error check. */
    method Invoke(request: ServiceRequest) returns (r: Result<Reply, ApiError>)
      modifies rpc
      ensures rpc.calls == old(rpc.calls) + [(MethodName(request), request)]
      ensures r == CheckReply(rpc.answer(MethodName(request), request))
    {
      var reply := rpc.Call(MethodName(request), request);
      r := CheckReply(reply);
    }

    method Publish(channel: string, data: PhpArray := [], skipHistory: bool := true, tags: PhpArray := [])
      returns (r: Result<Reply, ApiError>)
      modifies rpc
      ensures rpc.calls == old(rpc.calls) + [("centrifuge.Publish", BuildPublish(json, channel, data, skipHistory, tags))]
      ensures r == CheckReply(rpc.answer("centrifuge.Publish", BuildPublish(json, channel, data, skipHistory, tags)))
    {
      r := Invoke(BuildPublish(json, channel, data, skipHistory, tags));
    }

    method Broadcast(channels: seq<string>, data: PhpArray := [], skipHistory: bool := true, tags: PhpArray := [])
      returns (r: Result<Reply, ApiError>)
      modifies rpc
      ensures rpc.calls == old(rpc.calls) + [("centrifuge.Broadcast", BuildBroadcast(json, channels, data, skipHistory, tags))]
      ensures r == CheckReply(rpc.answer("centrifuge.Broadcast", BuildBroadcast(json, channels, data, skipHistory, tags)))
    {
      r := Invoke(BuildBroadcast(json, channels, data, skipHistory, tags));
    }

    method Refresh(user: string, client: Option<string> := None, session: Option<string> := None,
                   expired: bool := false, expireAt: Option<DateTime> := None)
      returns (r: Result<Reply, ApiError>)
      modifies rpc
      ensures rpc.calls == old(rpc.calls) + [("centrifuge.Refresh", BuildRefresh(user, client, session, expired, expireAt))]
      ensures r == CheckReply(rpc.answer("centrifuge.Refresh", BuildRefresh(user, client, session, expired, expireAt)))
    {
      r := Invoke(BuildRefresh(user, client, session, expired, expireAt));
    }

    method Subscribe(channel: string, user: string, expireAt: Option<DateTime> := None, info: PhpArray := [],
                     client: Option<string> := None, data: PhpArray := [], session: Option<string> := None)
      returns (r: Result<Reply, ApiError>)
      modifies rpc
      ensures rpc.calls == old(rpc.calls) +
        [("centrifuge.Subscribe", BuildSubscribe(json, channel, user, expireAt, info, client, data, session))]
      ensures r == CheckReply(rpc.answer("centrifuge.Subscribe",
                                         BuildSubscribe(json, channel, user, expireAt, info, client, data, session)))
    {
      r := Invoke(BuildSubscribe(json, channel, user, expireAt, info, client, data, session));
    }

    method Unsubscribe(channel: string, user: string, client: Option<string> := None, session: Option<string> := None)
      returns (r: Result<Reply, ApiError>)
      modifies rpc
      ensures rpc.calls == old(rpc.calls) + [("centrifuge.Unsubscribe", BuildUnsubscribe(channel, user, client, session))]
      ensures r == CheckReply(rpc.answer("centrifuge.Unsubscribe", BuildUnsubscribe(channel, user, client, session)))
    {
      r := Invoke(BuildUnsubscribe(channel, user, client, session));
    }

    method Disconnect(user: string, client: Option<string> := None, whitelist: seq<string> := [],
                      session: Option<string> := None, disconnect: Option<Payload.Disconnect> := None)
      returns (r: Result<Reply, ApiError>)
      modifies rpc
      ensures rpc.calls == old(rpc.calls) +
        [("centrifuge.Unsubscribe", BuildDisconnect(user, client, whitelist, session, disconnect))]
      ensures r == CheckReply(rpc.answer("centrifuge.Unsubscribe", BuildDisconnect(user, client, whitelist, session, disconnect)))
    {
      r := Invoke(BuildDisconnect(user, client, whitelist, session, disconnect));
    }

    /** `presence($channel)`: the reshaped presence of the reply's result. */
    method Presence(channel: string) returns (r: Result<PhpArray, ApiError>)
      modifies rpc
      ensures rpc.calls == old(rpc.calls) + [("centrifuge.Presence", PresenceRequest(channel))]
      ensures var checked := CheckReply(rpc.answer("centrifuge.Presence", PresenceRequest(channel)));
        && (checked.Failure? ==> r == Failure(checked.error))
        && (checked.Success? && checked.value.result.NoResult? ==> r == Failure(NullResult))
        && (checked.Success? && checked.value.result.PresenceResult? ==>
              r == Success(PutAll(PresenceEntries(checked.value.result.presence))))
    {
      var checked := Invoke(PresenceRequest(channel));
      if checked.Failure? {
        return Failure(checked.error);
      }
      match checked.value.result
      case NoResult =>
        r := Failure(NullResult);
      case PresenceResult(presence) =>
        var data := ReshapePresence(presence);
        r := Success(data);
      case _ =>
        // a reply of another shape stands for an empty PresenceResult
        r := Success([]);
    }

    /** `presenceStats($channel)` */
    method PresenceStats(channel: string) returns (r: Result<PhpArray, ApiError>)
      modifies rpc
      ensures rpc.calls == old(rpc.calls) + [("centrifuge.PresenceStats", PresenceStatsRequest(channel))]
      ensures var checked := CheckReply(rpc.answer("centrifuge.PresenceStats", PresenceStatsRequest(channel)));
        && (checked.Failure? ==> r == Failure(checked.error))
        && (checked.Success? ==> r == PresenceStatsData(checked.value.result))
    {
      var checked := Invoke(PresenceStatsRequest(channel));
      if checked.Failure? {
        return Failure(checked.error);
      }
      r := PresenceStatsData(checked.value.result);
    }

    /** `channels($pattern)`: the reshaped channels of the reply's result. */
    method Channels(pattern: Option<string> := None) returns (r: Result<PhpArray, ApiError>)
      modifies rpc
      ensures rpc.calls == old(rpc.calls) + [("centrifuge.Channels", BuildChannels(pattern))]
      ensures var checked := CheckReply(rpc.answer("centrifuge.Channels", BuildChannels(pattern)));
        && (checked.Failure? ==> r == Failure(checked.error))
        && (checked.Success? && checked.value.result.NoResult? ==> r == Failure(NullResult))
        && (checked.Success? && checked.value.result.ChannelsResult? ==>
              r == Success(PutAll(ChannelEntries(checked.value.result.channels))))
    {
      var checked := Invoke(BuildChannels(pattern));
      if checked.Failure? {
        return Failure(checked.error);
      }
      match checked.value.result
      case NoResult =>
        r := Failure(NullResult);
      case ChannelsResult(channels) =>
        var data := ReshapeChannels(channels);
        r := Success(data);
      case _ =>
        r := Success([]);
    }

    method BlockUser(user: string, expireAt: Option<DateTime> := None) returns (r: Result<Reply, ApiError>)
      modifies rpc
      ensures rpc.calls == old(rpc.calls) + [("centrifuge.BlockUser", BuildBlockUser(user, expireAt))]
      ensures r == CheckReply(rpc.answer("centrifuge.BlockUser", BuildBlockUser(user, expireAt)))
    {
      r := Invoke(BuildBlockUser(user, expireAt));
    }

    method UnblockUser(user: string) returns (r: Result<Reply, ApiError>)
      modifies rpc
      ensures rpc.calls == old(rpc.calls) + [("centrifuge.UnblockUser", UnblockUserRequest(user))]
      ensures r == CheckReply(rpc.answer("centrifuge.UnblockUser", UnblockUserRequest(user)))
    {
      r := Invoke(UnblockUserRequest(user));
    }
  }
}
