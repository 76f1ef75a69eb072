/** `RefreshRequest` of the flat layout: the Refresh mapper with plain `json_encode`. */
module FlatRefresh {
  import opened Wrappers
  import opened Php
  import opened Json
  import opened Payload
  import opened SubscribeOptions
  import Dto = ProxyDto
  import opened AbstractRequest
  import Ns = Refresh

  /**
   * `mapResponse`, flat layout: `expired` copied, `expire_at` normalised to
   * seconds (0 for none), `info` as the lenient encoder gives it; equal to
   * the namespaced result wherever that one succeeds.
   */
  function MapResponse(c: JsonCodec, response: RefreshResponse): (r: Dto.RefreshResult)
    ensures r.expired == response.expired
    ensures r.expireAt == ExpireSeconds(response.expireAt)
    ensures r.info == EncodeFieldLenient(c, response.info)
    ensures Ns.MapResponse(c, response).Success? ==> r == Ns.MapResponse(c, response).value
  {
    Dto.RefreshResult(
      expired := response.expired,
      expireAt := if response.expireAt.Some? then
                    (match response.expireAt.value
                     case AtDateTime(d) => d.timestamp
                     case AtSeconds(n) => n)
                  else 0,
      info := EncodeFieldLenient(c, response.info))
  }

  /** `respond($response)`: always one message of type Refresh with only `result` set. */
  method Respond(req: ProxyRequest, response: RefreshResponse) returns (r: Dto.RefreshResult)
    requires req.request.Refresh?
    modifies req.worker
    ensures r == MapResponse(req.codecs.json, response)
    ensures req.worker.sent == old(req.worker.sent) + [Envelope(req.codecs, ResultReply(req.request, Dto.RefreshOk(r)))]
    ensures req.worker.inbox == old(req.worker.inbox)
  {
    r := MapResponse(req.codecs.json, response);
    var message := req.ResponseObject();
    message := Dto.SetResult(message, Dto.RefreshOk(r));
    req.SendResponse(message);
  }
}
