/**
 * `SubscribeRequest` of the flat layout: the Subscribe mapper with plain
 * `json_encode`; `getData`.
 */
module FlatSubscribe {
  import opened Wrappers
  import opened Php
  import opened Json
  import opened Payload
  import opened SubscribeOptions
  import Dto = ProxyDto
  import opened AbstractRequest
  import Ns = Subscribe

  /**
   * `mapResponse`, flat layout: `info` and `data` as the lenient encoder
   * gives them, `allow` kept, `override` set exactly when present; equal to
   * the namespaced result wherever that one succeeds.
   */
  function MapResponse(c: JsonCodec, response: SubscribeResponse): (r: Dto.SubscribeResult)
    ensures r.info == EncodeFieldLenient(c, response.info)
    ensures r.data == EncodeFieldLenient(c, response.data)
    ensures r.allow == response.allow
    ensures r.override.Some? <==> response.override.Some?
    ensures response.override.Some? ==> OverrideOf(r.override.value) == response.override.value
    ensures Ns.MapResponse(c, response).Success? ==> r == Ns.MapResponse(c, response).value
  {
    Dto.SubscribeResult(
      info := EncodeFieldLenient(c, response.info),
      data := EncodeFieldLenient(c, response.data),
      allow := response.allow,
      override := if response.override.Some? then Some(MapSubscribeOption(response.override.value)) else None)
  }

  /** `respond($response)`: always one message of type Subscribe with only `result` set. */
  method Respond(req: ProxyRequest, response: SubscribeResponse) returns (r: Dto.SubscribeResult)
    requires req.request.Subscribe?
    modifies req.worker
    ensures r == MapResponse(req.codecs.json, response)
    ensures req.worker.sent == old(req.worker.sent) + [Envelope(req.codecs, ResultReply(req.request, Dto.SubscribeOk(r)))]
    ensures req.worker.inbox == old(req.worker.inbox)
  {
    r := MapResponse(req.codecs.json, response);
    var message := req.ResponseObject();
    message := Dto.SetResult(message, Dto.SubscribeOk(r));
    req.SendResponse(message);
  }
}
