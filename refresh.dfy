/**
 * `Request\Refresh`: mapping the application's `RefreshResponse` to the
 * wire `RefreshResult` and replying with it. `info` is encoded under
 * JSON_THROW_ON_ERROR.
 */
module Refresh {
  import opened Wrappers
  import opened Php
  import opened Json
  import opened Payload
  import opened SubscribeOptions
  import Dto = ProxyDto
  import opened AbstractRequest

  /**
   * `mapResponse`: `expired` is always copied; `expire_at` is 0 for no
   * expiry and otherwise the expiry in seconds, a date/time giving its
   * timestamp; `info` is "" for an empty array and its JSON text otherwise.
   */
  function MapResponse(c: JsonCodec, response: RefreshResponse): (r: Result<Dto.RefreshResult, JsonException>)
    ensures r.Failure? <==> EncodeField(c, response.info).Failure?
    ensures r.Success? ==> r.value.expired == response.expired
    ensures r.Success? ==> r.value.expireAt == ExpireSeconds(response.expireAt)
    ensures r.Success? ==> r.value.info == EncodeField(c, response.info).value
  {
    var info :- EncodeField(c, response.info);
    Success(Dto.RefreshResult(
      expired := response.expired,
      expireAt := if response.expireAt.Some? then
                    (match response.expireAt.value
                     case AtDateTime(d) => d.timestamp
                     case AtSeconds(n) => n)
                  else 0,
      info := info))
  }

  /** A default response maps to expired = false, expire_at = 0, info = "". */
  lemma MapDefaultResponse(c: JsonCodec)
    ensures MapResponse(c, RefreshResponse()) == Success(Dto.RefreshResult(false, 0, ""))
  {
  }

  /** An expiry given as a date/time and as its timestamp map alike. */
  lemma MapResponseInstant(c: JsonCodec, expired: bool, d: DateTime, info: PhpArray)
    ensures MapResponse(c, RefreshResponse(expired, Some(AtDateTime(d)), info))
         == MapResponse(c, RefreshResponse(expired, Some(AtSeconds(d.timestamp)), info))
  {
  }

  /** `info` reads back as the response's array when it is empty or round-trips. */
  lemma MapResponseReadsBack(c: JsonCodec, response: RefreshResponse)
    requires response.info == [] || RoundTrips(c, response.info)
    ensures MapResponse(c, response).Success?
    ensures DecodeField(c, MapResponse(c, response).value.info) == Success(response.info)
  {
  }

  /** `respond($response)`: one message of type Refresh with only `result` set. */
  method Respond(req: ProxyRequest, response: RefreshResponse) returns (r: Result<Dto.RefreshResult, JsonException>)
    requires req.request.Refresh?
    modifies req.worker
    ensures r == MapResponse(req.codecs.json, response)
    ensures r.Success? ==>
      req.worker.sent == old(req.worker.sent) + [Envelope(req.codecs, ResultReply(req.request, Dto.RefreshOk(r.value)))]
    ensures r.Failure? ==> req.worker.sent == old(req.worker.sent)
    ensures req.worker.inbox == old(req.worker.inbox)
  {
    r := MapResponse(req.codecs.json, response);
    if r.Success? {
      var message := req.ResponseObject();
      message := Dto.SetResult(message, Dto.RefreshOk(r.value));
      req.SendResponse(message);
    }
  }
}
