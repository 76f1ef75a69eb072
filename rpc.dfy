/**
 * `Request\RPC`: mapping the application's `RPCResponse` to the wire
 * `RPCResult` and replying with it. Unlike every other mapper it encodes
 * `data` even when empty, and without JSON_THROW_ON_ERROR.
 */
module RPC {
  import opened Wrappers
  import opened Php
  import opened Json
  import opened Payload
  import Dto = ProxyDto
  import opened AbstractRequest

  /**
   * `mapResponse`: `data` is always the JSON text of the response's data,
   * the empty array included; where `json_encode` fails, the setter stores
   * its `false` as "".
   */
  function MapResponse(c: JsonCodec, response: RPCResponse): (r: Dto.RPCResult)
    ensures c.encode(response.data).Some? ==> r.data == c.encode(response.data).value
    ensures c.encode(response.data).None? ==> r.data == ""
  {
    Dto.RPCResult(data := EncodeLenient(c, response.data))
  }

  /**
   * The one exception to omit-when-empty: with a codec that writes the
   * empty array as non-empty text (`[]`), an empty response still carries
   * that text, where EncodeField would leave "".
   */
  lemma EmptyDataIsStillEncoded(c: JsonCodec)
    requires c.encode([]).Some? && c.encode([]).value != ""
    ensures MapResponse(c, RPCResponse()).data == c.encode([]).value
    ensures MapResponse(c, RPCResponse()).data != EncodeField(c, []).value
  {
  }

  /** `data` reads back as the response's array when it round-trips, empty or not. */
  lemma MapResponseReadsBack(c: JsonCodec, response: RPCResponse)
    requires RoundTrips(c, response.data)
    ensures DecodeField(c, MapResponse(c, response).data) == Success(response.data)
  {
  }

  /** `respond($response)`: one message of type RPC with only `result` set; it cannot fail. */
  method Respond(req: ProxyRequest, response: RPCResponse) returns (r: Dto.RPCResult)
    requires req.request.RPC?
    modifies req.worker
    ensures r == MapResponse(req.codecs.json, response)
    ensures req.worker.sent == old(req.worker.sent) + [Envelope(req.codecs, ResultReply(req.request, Dto.RPCOk(r)))]
    ensures req.worker.inbox == old(req.worker.inbox)
  {
    r := MapResponse(req.codecs.json, response);
    var message := req.ResponseObject();
    message := Dto.SetResult(message, Dto.RPCOk(r));
    req.SendResponse(message);
  }
}
