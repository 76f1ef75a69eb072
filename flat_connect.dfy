/**
 * `ConnectRequest` of the flat layout: the Connect mapper with plain
 * `json_encode`, so an encoding failure leaves a field "" instead of
 * aborting the reply.
 */
module FlatConnect {
  import opened Wrappers
  import opened Php
  import opened Json
  import opened Payload
  import opened SubscribeOptions
  import Dto = ProxyDto
  import opened AbstractRequest
  import Ns = Connect

  /** One iteration of `mapSubscriptions`; where the namespaced one succeeds, the same entry. */
  function MapSubscription(c: JsonCodec, s: SubscribeOption): (r: Dto.SubscribeOptions)
    ensures r.expireAt == ExpireSeconds(s.expireAt)
    ensures r.data == EncodeFieldLenient(c, s.data) && r.info == EncodeFieldLenient(c, s.info)
    ensures r.override.Some? <==> s.override.Some?
    ensures s.override.Some? ==> OverrideOf(r.override.value) == s.override.value
    ensures Ns.MapSubscription(c, s).Success? ==> r == Ns.MapSubscription(c, s).value
  {
    Dto.SubscribeOptions(
      expireAt := if Truthy(s.expireAt) then ParseExpiresAt(s.expireAt.value) else 0,
      data := EncodeFieldLenient(c, s.data),
      info := EncodeFieldLenient(c, s.info),
      override := if s.override.Some? then Some(MapSubscribeOption(s.override.value)) else None)
  }

  /** What `mapSubscriptions` returns: one entry per subscription, same name, same order. */
  function Subscriptions(c: JsonCodec, subs: seq<(string, SubscribeOption)>): (r: Ns.Subs)
    ensures |r| == |subs|
    ensures forall i :: 0 <= i < |subs| ==> r[i] == (subs[i].0, MapSubscription(c, subs[i].1))
    ensures Ns.Subscriptions(c, subs).Success? ==> r == Ns.Subscriptions(c, subs).value
  {
    seq(|subs|, i requires 0 <= i < |subs| => (subs[i].0, MapSubscription(c, subs[i].1)))
  }

  /** `mapSubscriptions`: the `foreach` loop filling `$subs`. */
  method MapSubscriptions(c: JsonCodec, subs: seq<(string, SubscribeOption)>) returns (r: Ns.Subs)
    ensures r == Subscriptions(c, subs)
  {
    r := [];
    var i := 0;
    while i < |subs|
      invariant 0 <= i <= |subs|
      invariant |r| == i
      invariant forall j :: 0 <= j < i ==> r[j] == (subs[j].0, MapSubscription(c, subs[j].1))
    {
      var (name, subscription) := subs[i];
      r := r + [(name, MapSubscription(c, subscription))];
      i := i + 1;
    }
  }

  /** The setter chain of `mapResponse`, given the mapped subscriptions. */
  function Assemble(c: JsonCodec, response: ConnectResponse, subs: Ns.Subs): Dto.ConnectResult {
    Dto.ConnectResult(
      user := response.user,
      expireAt := ExpireSeconds(response.expireAt),
      data := EncodeFieldLenient(c, response.data),
      info := EncodeFieldLenient(c, response.info),
      meta := EncodeFieldLenient(c, response.meta),
      channels := response.channels,
      subs := subs)
  }

  /**
   * `mapResponse`, flat layout: it agrees with the namespaced mapper
   * wherever that one succeeds, and otherwise differs only in leaving the
   * fields that failed to encode as "".
   */
  function MapResponse(c: JsonCodec, response: ConnectResponse): (r: Dto.ConnectResult)
    ensures r.user == response.user && r.channels == response.channels
    ensures r.expireAt == ExpireSeconds(response.expireAt)
    ensures r.data == EncodeFieldLenient(c, response.data)
    ensures r.info == EncodeFieldLenient(c, response.info)
    ensures r.meta == EncodeFieldLenient(c, response.meta)
    ensures r.subs == Subscriptions(c, response.subscriptions)
    ensures Ns.MapResponse(c, response).Success? ==> r == Ns.MapResponse(c, response).value
  {
    Assemble(c, response, Subscriptions(c, response.subscriptions))
  }

  /** `respond($response)`: always one message of type Connect with only `result` set. */
  method Respond(req: ProxyRequest, response: ConnectResponse) returns (r: Dto.ConnectResult)
    requires req.request.Connect?
    modifies req.worker
    ensures r == MapResponse(req.codecs.json, response)
    ensures req.worker.sent == old(req.worker.sent) + [Envelope(req.codecs, ResultReply(req.request, Dto.ConnectOk(r)))]
    ensures req.worker.inbox == old(req.worker.inbox)
  {
    var subs: Ns.Subs := [];
    if response.subscriptions != [] {
      subs := MapSubscriptions(req.codecs.json, response.subscriptions);
    }
    r := Assemble(req.codecs.json, response, subs);
    var message := req.ResponseObject();
    message := Dto.SetResult(message, Dto.ConnectOk(r));
    req.SendResponse(message);
  }
}
