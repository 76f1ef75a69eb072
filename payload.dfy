/**
 * The application-side response values (the `Payload` classes): plain
 * records, with the constructor defaults of the PHP classes.
 */
module Payload {
  import opened Wrappers
  import opened Php

  /** A `\DateTimeInterface`, reduced to what the core reads: `getTimestamp()`. */
  datatype DateTime = DateTime(timestamp: int)

  /** `int|\DateTimeInterface`: epoch seconds, or a date/time value. */
  datatype ExpireAt = AtSeconds(seconds: int) | AtDateTime(at: DateTime)

  /** PHP truthiness of `int|\DateTimeInterface|null`: objects are always true, 0 is false. */
  predicate Truthy(e: Option<ExpireAt>) {
    match e
    case None => false
    case Some(AtSeconds(n)) => n != 0
    case Some(AtDateTime(_)) => true
  }

  /** Five tri-state overrides: None is "not overridden". */
  datatype Override = Override(
    presence: Option<bool> := None,
    joinLeave: Option<bool> := None,
    forcePushJoinLeave: Option<bool> := None,
    forcePositioning: Option<bool> := None,
    forceRecovery: Option<bool> := None)

  datatype SubscribeOption = SubscribeOption(
    expireAt: Option<ExpireAt> := None,
    info: PhpArray := [],
    data: PhpArray := [],
    override: Option<Override> := None)

  datatype ConnectResponse = ConnectResponse(
    user: string := "",
    expireAt: Option<ExpireAt> := None,
    data: PhpArray := [],
    info: PhpArray := [],
    channels: seq<string> := [],
    meta: PhpArray := [],
    subscriptions: seq<(string, SubscribeOption)> := [])

  datatype SubscribeResponse = SubscribeResponse(
    info: PhpArray := [],
    data: PhpArray := [],
    allow: seq<string> := [],
    override: Option<Override> := None)

  datatype RefreshResponse = RefreshResponse(
    expired: bool := false,
    expireAt: Option<ExpireAt> := None,
    info: PhpArray := [])

  datatype PublishResponse = PublishResponse(
    data: PhpArray := [],
    skipHistory: bool := false)

  datatype RPCResponse = RPCResponse(
    data: PhpArray := [])

  datatype Disconnect = Disconnect(
    code: int,
    reason: string,
    reconnect: bool := false)
}
