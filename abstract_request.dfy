/**
 * `AbstractRequest`: what every typed request shares. It holds the worker it
 * answers through and a copy-on-write attribute map, and it sends error and
 * disconnect replies. A reply is always a fresh response message of the
 * request's own type with one envelope field set, serialised as the body of
 * a payload with no header.
 */
module AbstractRequest {
  import opened Wrappers
  import opened Php
  import opened Requests
  import opened RequestTypes
  import opened ProxyDto
  import opened Transport

  /** The payload `sendResponse` hands to the worker for message `m`. */
  function Envelope(c: Codecs, m: ResponseMessage): (p: Payload)
    ensures p.header == ""
  {
    Payload(c.proto.serialize(m))
  }

  class ProxyRequest {
    /** The typed request this object is (its class and readonly fields). */
    const request: Request
    const worker: Worker
    const codecs: Codecs
    var attributes: PhpArray

    constructor (request: Request, worker: Worker, codecs: Codecs)
      ensures this.request == request && this.worker == worker && this.codecs == codecs
      ensures attributes == []
    {
      this.request := request;
      this.worker := worker;
      this.codecs := codecs;
      attributes := [];
    }

    /** `getAttributes()` */
    function GetAttributes(): PhpArray
      reads this
    {
      attributes
    }

    /** `getAttribute($name, $default)`: `$this->attributes[$name] ?? $default`. */
    function GetAttribute(name: string, default: PhpValue := PNull): (r: PhpValue)
      reads this
      ensures Get(attributes, StrKey(name)).Some? && Get(attributes, StrKey(name)).value != PNull
        ==> r == Get(attributes, StrKey(name)).value
      ensures !HasKey(attributes, StrKey(name)) ==> r == default
      ensures Get(attributes, StrKey(name)) == Some(PNull) ==> r == default
    {
      Coalesce(Get(attributes, StrKey(name)), default)
    }

    /**
     * `withAttribute($name, $value)`: a clone that maps the name to the
     * value and otherwise agrees with this request; this one is unchanged.
     */
    method WithAttribute(name: string, value: PhpValue) returns (copy: ProxyRequest)
      ensures fresh(copy)
      ensures copy.request == request && copy.worker == worker && copy.codecs == codecs
      ensures copy.attributes == Put(attributes, StrKey(name), value)
      ensures value != PNull ==> copy.GetAttribute(name) == value
      ensures forall other, d :: other != name ==> copy.GetAttribute(other, d) == GetAttribute(other, d)
      ensures attributes == old(attributes)
    {
      copy := new ProxyRequest(request, worker, codecs);
      copy.attributes := Put(attributes, StrKey(name), value);
      GetPut(attributes, StrKey(name), value);
      forall other | other != name
        ensures Get(copy.attributes, StrKey(other)) == Get(attributes, StrKey(other))
      {
        GetPutOther(attributes, StrKey(name), value, StrKey(other));
      }
    }

    /** `getResponseObject()`: a fresh response message of this request's type. */
    function ResponseObject(): (m: ResponseMessage)
      ensures m == NewResponse(CreateFrom(request))
    {
      NewResponse(CreateFrom(request))
    }

    /** `sendResponse($response)`: exactly one worker call, body only. */
    method SendResponse(m: ResponseMessage)
      modifies worker
      ensures worker.sent == old(worker.sent) + [Envelope(codecs, m)]
      ensures worker.inbox == old(worker.inbox)
    {
      worker.Respond(Envelope(codecs, m));
    }

    /** `error($code, $message, $temporary = false)` */
    method Error(code: int, message: string, temporary: bool := false)
      modifies worker
      ensures worker.sent == old(worker.sent) + [Envelope(codecs, ErrorReply(request, code, message, temporary))]
      ensures worker.inbox == old(worker.inbox)
    {
      var response := ResponseObject();
      response := SetError(response, ProxyDto.Error(code, message, temporary));
      SendResponse(response);
    }

    /** `disconnect($code, $reason, $reconnect = false)` */
    method Disconnect(code: int, reason: string, reconnect: bool := false)
      modifies worker
      ensures worker.sent == old(worker.sent) + [Envelope(codecs, DisconnectReply(request, code, reason, reconnect))]
      ensures worker.inbox == old(worker.inbox)
    {
      var response := ResponseObject();
      response := SetDisconnect(response, ProxyDto.Disconnect(code, reason, reconnect));
      SendResponse(response);
    }
  }

  /**
   * The message `error()` sends: of the request's type, with exactly the
   * `error` field set, to the given code, message and flag.
   */
  function ErrorReply(r: Request, code: int, message: string, temporary: bool): (m: ResponseMessage)
    ensures m.messageType == CreateFrom(r)
    ensures ExactlyOneSet(m) && m.error == Some(ProxyDto.Error(code, message, temporary))
  {
    SetError(NewResponse(CreateFrom(r)), ProxyDto.Error(code, message, temporary))
  }

  /**
   * The message `disconnect()` sends: of the request's type, with exactly
   * the `disconnect` field set.
   */
  function DisconnectReply(r: Request, code: int, reason: string, reconnect: bool): (m: ResponseMessage)
    ensures m.messageType == CreateFrom(r)
    ensures ExactlyOneSet(m) && m.disconnect == Some(ProxyDto.Disconnect(code, reason, reconnect))
  {
    SetDisconnect(NewResponse(CreateFrom(r)), ProxyDto.Disconnect(code, reason, reconnect))
  }

  /**
   * The message `respond()` sends: of the request's type, with exactly the
   * `result` field set. Only a result of the request's own type fits.
   */
  function ResultReply(r: Request, result: ProxyResult): (m: ResponseMessage)
    requires ResultType(result) == CreateFrom(r)
    ensures m.messageType == CreateFrom(r)
    ensures ExactlyOneSet(m) && m.result == Some(result)
  {
    SetResult(NewResponse(CreateFrom(r)), result)
  }
}
