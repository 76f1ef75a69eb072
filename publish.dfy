/**
 * `Request\Publish`: mapping the application's `PublishResponse` to the
 * wire `PublishResult` and replying with it. `data` is encoded under
 * JSON_THROW_ON_ERROR.
 */
module Publish {
  import opened Wrappers
  import opened Php
  import opened Json
  import opened Payload
  import Dto = ProxyDto
  import opened AbstractRequest

  /**
   * `mapResponse`: `skip_history` is always copied; `data` is "" for an
   * empty array and its JSON text otherwise.
   */
  function MapResponse(c: JsonCodec, response: PublishResponse): (r: Result<Dto.PublishResult, JsonException>)
    ensures r.Failure? <==> EncodeField(c, response.data).Failure?
    ensures r.Success? ==> r.value.skipHistory == response.skipHistory
    ensures r.Success? ==> r.value.data == EncodeField(c, response.data).value
  {
    var data :- EncodeField(c, response.data);
    Success(Dto.PublishResult(data := data, skipHistory := response.skipHistory))
  }

  /** A default response maps to data = "" and skip_history = false. */
  lemma MapDefaultResponse(c: JsonCodec)
    ensures MapResponse(c, PublishResponse()) == Success(Dto.PublishResult("", false))
  {
  }

  /** `data` reads back as the response's array when it is empty or round-trips. */
  lemma MapResponseReadsBack(c: JsonCodec, response: PublishResponse)
    requires response.data == [] || RoundTrips(c, response.data)
    ensures MapResponse(c, response).Success?
    ensures DecodeField(c, MapResponse(c, response).value.data) == Success(response.data)
  {
  }

  /** `respond($response)`: one message of type Publish with only `result` set. */
  method Respond(req: ProxyRequest, response: PublishResponse) returns (r: Result<Dto.PublishResult, JsonException>)
    requires req.request.Publish?
    modifies req.worker
    ensures r == MapResponse(req.codecs.json, response)
    ensures r.Success? ==>
      req.worker.sent == old(req.worker.sent) + [Envelope(req.codecs, ResultReply(req.request, Dto.PublishOk(r.value)))]
    ensures r.Failure? ==> req.worker.sent == old(req.worker.sent)
    ensures req.worker.inbox == old(req.worker.inbox)
  {
    r := MapResponse(req.codecs.json, response);
    if r.Success? {
      var message := req.ResponseObject();
      message := Dto.SetResult(message, Dto.PublishOk(r.value));
      req.SendResponse(message);
    }
  }
}
