/**
 * `Request\Subscribe`: mapping the application's `SubscribeResponse` to the
 * wire `SubscribeResult` and replying with it; `getData`. JSON fields are
 * encoded under JSON_THROW_ON_ERROR.
 */
module Subscribe {
  import opened Wrappers
  import opened Php
  import opened Json
  import opened Payload
  import opened SubscribeOptions
  import Dto = ProxyDto
  import opened AbstractRequest

  /**
   * `mapResponse`: `info` and `data` are "" for an empty array and their
   * JSON text otherwise; `allow` is kept in order; `override` is set exactly
   * when the response has one, and reads back as it. It fails exactly when
   * an encoding does.
   */
  function MapResponse(c: JsonCodec, response: SubscribeResponse): (r: Result<Dto.SubscribeResult, JsonException>)
    ensures r.Failure? <==> EncodeField(c, response.info).Failure? || EncodeField(c, response.data).Failure?
    ensures r.Success? ==> r.value.info == EncodeField(c, response.info).value
    ensures r.Success? ==> r.value.data == EncodeField(c, response.data).value
    ensures r.Success? ==> r.value.allow == response.allow
    ensures r.Success? ==> (r.value.override.Some? <==> response.override.Some?)
    ensures r.Success? && response.override.Some? ==> OverrideOf(r.value.override.value) == response.override.value
  {
    var info :- EncodeField(c, response.info);
    var data :- EncodeField(c, response.data);
    // an empty `allow` is left unset, which is the same empty list
    Success(Dto.SubscribeResult(
      info := info,
      data := data,
      allow := response.allow,
      override := if response.override.Some? then Some(MapSubscribeOption(response.override.value)) else None))
  }

  /** A default response maps to the default result. */
  lemma MapDefaultResponse(c: JsonCodec)
    ensures MapResponse(c, SubscribeResponse()) == Success(Dto.SubscribeResult())
  {
  }

  /**
   * The request decoder reads the result's JSON fields back as the
   * response's arrays whenever those are empty or round-trip.
   */
  lemma MapResponseReadsBack(c: JsonCodec, response: SubscribeResponse)
    requires response.info == [] || RoundTrips(c, response.info)
    requires response.data == [] || RoundTrips(c, response.data)
    ensures MapResponse(c, response).Success?
    ensures DecodeField(c, MapResponse(c, response).value.info) == Success(response.info)
    ensures DecodeField(c, MapResponse(c, response).value.data) == Success(response.data)
  {
  }

  /** `respond($response)`: one message of type Subscribe with only `result` set. */
  method Respond(req: ProxyRequest, response: SubscribeResponse) returns (r: Result<Dto.SubscribeResult, JsonException>)
    requires req.request.Subscribe?
    modifies req.worker
    ensures r == MapResponse(req.codecs.json, response)
    ensures r.Success? ==>
      req.worker.sent == old(req.worker.sent) + [Envelope(req.codecs, ResultReply(req.request, Dto.SubscribeOk(r.value)))]
    ensures r.Failure? ==> req.worker.sent == old(req.worker.sent)
    ensures req.worker.inbox == old(req.worker.inbox)
  {
    r := MapResponse(req.codecs.json, response);
    if r.Success? {
      var message := req.ResponseObject();
      message := Dto.SetResult(message, Dto.SubscribeOk(r.value));
      req.SendResponse(message);
    }
  }
}
