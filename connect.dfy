/**
 * `Request\Connect`: mapping the application's `ConnectResponse` to the
 * wire `ConnectResult` and replying with it. JSON fields are encoded under
 * JSON_THROW_ON_ERROR, so an encoding failure aborts the reply.
 */
module Connect {
  import opened Wrappers
  import opened Php
  import opened Json
  import opened Payload
  import opened SubscribeOptions
  import Dto = ProxyDto
  import opened AbstractRequest

  type Subs = seq<(string, Dto.SubscribeOptions)>

  /**
   * One iteration of `mapSubscriptions`. The truthiness test on `expireAt`
   * differs from a null test only on 0, which is the unset value anyway,
   * so the wire field is the parsed expiry or 0 exactly as for the
   * top-level `expire_at`.
   */
  function MapSubscription(c: JsonCodec, s: SubscribeOption): (r: Result<Dto.SubscribeOptions, JsonException>)
    ensures r.Success? <==> EncodeField(c, s.data).Success? && EncodeField(c, s.info).Success?
    ensures r.Success? ==> r.value.expireAt == ExpireSeconds(s.expireAt)
    ensures r.Success? ==> r.value.data == EncodeField(c, s.data).value && r.value.info == EncodeField(c, s.info).value
    ensures r.Success? ==> (r.value.override.Some? <==> s.override.Some?)
    ensures r.Success? && s.override.Some? ==> OverrideOf(r.value.override.value) == s.override.value
  {
    var data :- EncodeField(c, s.data);
    var info :- EncodeField(c, s.info);
    Success(Dto.SubscribeOptions(
      expireAt := if Truthy(s.expireAt) then ParseExpiresAt(s.expireAt.value) else 0,
      data := data,
      info := info,
      override := if s.override.Some? then Some(MapSubscribeOption(s.override.value)) else None))
  }

  /**
   * What `mapSubscriptions` returns: one entry per subscription, under the
   * same name and in the same order, or the JSON error if any entry fails.
   * The names are the keys of a PHP array, so `$subs[$name] = $sub` always
   * adds a new entry at the end.
   */
  function Subscriptions(c: JsonCodec, subs: seq<(string, SubscribeOption)>): (r: Result<Subs, JsonException>)
    ensures r.Failure? <==> exists i :: 0 <= i < |subs| && MapSubscription(c, subs[i].1).Failure?
    ensures r.Success? ==> |r.value| == |subs|
    ensures r.Success? ==> forall i :: 0 <= i < |subs| ==>
      r.value[i].0 == subs[i].0 && MapSubscription(c, subs[i].1) == Success(r.value[i].1)
    decreases |subs|
  {
    if subs == [] then Success([])
    else
      var init :- Subscriptions(c, subs[..|subs| - 1]);
      var last :- MapSubscription(c, subs[|subs| - 1].1);
      Success(init + [(subs[|subs| - 1].0, last)])
  }

  /** `mapSubscriptions`: the `foreach` loop filling `$subs`. */
  method MapSubscriptions(c: JsonCodec, subs: seq<(string, SubscribeOption)>) returns (r: Result<Subs, JsonException>)
    ensures r == Subscriptions(c, subs)
  {
    var out: Subs := [];
    var i := 0;
    while i < |subs|
      invariant 0 <= i <= |subs|
      invariant Subscriptions(c, subs[..i]) == Success(out)
    {
      var (name, subscription) := subs[i];
      var sub := MapSubscription(c, subscription);
      if sub.Failure? {
        assert MapSubscription(c, subs[i].1).Failure?;
        assert Subscriptions(c, subs).Failure? && Subscriptions(c, subs).error.JsonException?;
        return Failure(JsonException);
      }
      assert subs[..i + 1][..i] == subs[..i];
      out := out + [(name, sub.value)];
      i := i + 1;
    }
    assert subs[..i] == subs;
    r := Success(out);
  }

  /** The setter chain of `mapResponse`, given the mapped subscriptions. */
  function Assemble(c: JsonCodec, response: ConnectResponse, subs: Result<Subs, JsonException>): Result<Dto.ConnectResult, JsonException> {
    var data :- EncodeField(c, response.data);
    var info :- EncodeField(c, response.info);
    var meta :- EncodeField(c, response.meta);
    var mapped :- subs;
    // an empty `channels` or `subs` is left unset, which is the same empty list
    Success(Dto.ConnectResult(
      user := response.user,
      expireAt := ExpireSeconds(response.expireAt),
      data := data,
      info := info,
      meta := meta,
      channels := response.channels,
      subs := mapped))
  }

  /**
   * `mapResponse`. `user` is always copied and `channels` kept in order;
   * `expire_at` is the parsed expiry or 0 for none; `data`, `info` and
   * `meta` are "" for an empty array and its JSON text otherwise; each
   * subscription keeps its name. It fails exactly when some encoding does.
   */
  function MapResponse(c: JsonCodec, response: ConnectResponse): (r: Result<Dto.ConnectResult, JsonException>)
    ensures r.Failure? <==>
      || EncodeField(c, response.data).Failure? || EncodeField(c, response.info).Failure?
      || EncodeField(c, response.meta).Failure? || Subscriptions(c, response.subscriptions).Failure?
    ensures r.Success? ==> r.value.user == response.user && r.value.channels == response.channels
    ensures r.Success? ==> r.value.expireAt == ExpireSeconds(response.expireAt)
    ensures r.Success? ==> r.value.data == EncodeField(c, response.data).value
    ensures r.Success? ==> r.value.info == EncodeField(c, response.info).value
    ensures r.Success? ==> r.value.meta == EncodeField(c, response.meta).value
    ensures r.Success? ==> Success(r.value.subs) == Subscriptions(c, response.subscriptions)
  {
    Assemble(c, response, Subscriptions(c, response.subscriptions))
  }

  /**
   * Omitting empty fields loses nothing: when every JSON field is empty or
   * round-trips through the codec, the request decoder reads back exactly
   * the response's arrays, and every subscription's override.
   */
  lemma MapResponseReadsBack(c: JsonCodec, response: ConnectResponse)
    requires response.data == [] || RoundTrips(c, response.data)
    requires response.info == [] || RoundTrips(c, response.info)
    requires response.meta == [] || RoundTrips(c, response.meta)
    requires forall i :: 0 <= i < |response.subscriptions| ==>
      var s := response.subscriptions[i].1;
      (s.data == [] || RoundTrips(c, s.data)) && (s.info == [] || RoundTrips(c, s.info))
    ensures MapResponse(c, response).Success?
    ensures DecodeField(c, MapResponse(c, response).value.data) == Success(response.data)
    ensures DecodeField(c, MapResponse(c, response).value.info) == Success(response.info)
    ensures DecodeField(c, MapResponse(c, response).value.meta) == Success(response.meta)
    ensures forall i :: 0 <= i < |response.subscriptions| ==>
      var w := MapResponse(c, response).value.subs[i].1;
      var s := response.subscriptions[i].1;
      && DecodeField(c, w.data) == Success(s.data) && DecodeField(c, w.info) == Success(s.info)
      && (s.override.Some? ==> w.override.Some? && OverrideOf(w.override.value) == s.override.value)
  {
    var subs := response.subscriptions;
    forall i | 0 <= i < |subs|
      ensures MapSubscription(c, subs[i].1).Success?
    {
      var s := subs[i].1;
      assert EncodeField(c, s.data).Success? && EncodeField(c, s.info).Success?;
    }
  }

  /**
   * `respond($response)`: maps the response and sends one message, of type
   * Connect with only `result` set. A JSON error propagates and nothing is
   * sent.
   */
  method Respond(req: ProxyRequest, response: ConnectResponse) returns (r: Result<Dto.ConnectResult, JsonException>)
    requires req.request.Connect?
    modifies req.worker
    ensures r == MapResponse(req.codecs.json, response)
    ensures r.Success? ==>
      req.worker.sent == old(req.worker.sent) + [Envelope(req.codecs, ResultReply(req.request, Dto.ConnectOk(r.value)))]
    ensures r.Failure? ==> req.worker.sent == old(req.worker.sent)
    ensures req.worker.inbox == old(req.worker.inbox)
  {
    var subs: Result<Subs, JsonException> := Success([]);
    if response.subscriptions != [] {
      subs := MapSubscriptions(req.codecs.json, response.subscriptions);
    }
    r := Assemble(req.codecs.json, response, subs);
    if r.Success? {
      var message := req.ResponseObject();
      message := Dto.SetResult(message, Dto.ConnectOk(r.value));
      req.SendResponse(message);
    }
  }
}
