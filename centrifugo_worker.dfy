/**
 * `CentrifugoWorker::waitRequest`: take one payload from the RoadRunner
 * worker and turn it into a typed request, into nothing (the stop signal or
 * an empty payload), or into an `InvalidRequestWrapper` holding whatever was
 * thrown. Nothing it calls can make it throw.
 */
module CentrifugoWorker {
  import opened Wrappers
  import opened Php
  import Requests
  import Dto = ProxyDto
  import opened Transport
  import Factory = RequestFactory

  /** The throwables `waitRequest` can catch. */
  datatype Throwable =
    | TransportError(reason: string)          // from `waitPayload()`
    | DecodeError(error: Factory.DecodeError) // from `createFromPayload()`

  /** `InvalidRequestWrapper`: holds the caught throwable. */
  datatype InvalidRequestWrapper = InvalidRequestWrapper(throwable: Throwable)

  /** `null|RequestInterface|InvalidRequestWrapper` */
  datatype WaitResult = NoRequest | Got(request: Requests.Request) | Invalid(wrapper: InvalidRequestWrapper)

  /** A payload `waitRequest` treats as no request: body and header both PHP-falsy. */
  predicate EmptyPayload(p: Payload) {
    Falsy(p.body) && Falsy(p.header)
  }

  /**
   * The outcome of one `waitRequest` for one `waitPayload` outcome: null
   * for null or an empty payload; else exactly the factory's request, or
   * its error wrapped; a transport error wrapped.
   */
  function Classify(c: Dto.Codecs, assertions: bool, received: Receive): (r: WaitResult)
    ensures received.Fails? ==> r == Invalid(InvalidRequestWrapper(TransportError(received.reason)))
    ensures received == Delivered(None) ==> r == NoRequest
    ensures received.Delivered? && received.payload.Some? && EmptyPayload(received.payload.value) ==> r == NoRequest
    ensures received.Delivered? && received.payload.Some? && !EmptyPayload(received.payload.value) ==>
      var made := Factory.CreateFromPayload(c, assertions, received.payload.value);
      && (r.Got? <==> made.Success?)
      && (made.Success? ==> r.request == made.value)
      && (made.Failure? ==> r == Invalid(InvalidRequestWrapper(DecodeError(made.error))))
    ensures r.NoRequest? ==> received.Delivered? && (received.payload.None? || EmptyPayload(received.payload.value))
  {
    match received
    case Fails(reason) => Invalid(InvalidRequestWrapper(TransportError(reason)))
    case Delivered(None) => NoRequest
    case Delivered(Some(p)) =>
      if EmptyPayload(p) then NoRequest
      else
        match Factory.CreateFromPayload(c, assertions, p)
        case Success(request) => Got(request)
        case Failure(e) => Invalid(InvalidRequestWrapper(DecodeError(e)))
  }

  /** A request reaches the application only from a payload with a recognised type tag. */
  lemma GotRequestHasKnownTag(c: Dto.Codecs, assertions: bool, received: Receive)
    requires Classify(c, assertions, received).Got?
    ensures received.Delivered? && received.payload.Some?
    ensures c.json.decode(received.payload.value.header).Some?
    ensures Factory.TypeOf(Factory.RawTag(c.json.decode(received.payload.value.header).value)).Some?
  {
  }

  class CentrifugoWorker {
    const worker: Worker
    const codecs: Dto.Codecs
    /** Whether PHP assertions are enabled, which decides the factory's body check. */
    const assertions: bool

    constructor (worker: Worker, codecs: Dto.Codecs, assertions: bool)
      ensures this.worker == worker && this.codecs == codecs && this.assertions == assertions
    {
      this.worker := worker;
      this.codecs := codecs;
      this.assertions := assertions;
    }

    /** `waitRequest()`: consumes exactly one payload, sends nothing. */
    method WaitRequest() returns (r: WaitResult)
      modifies worker
      ensures old(worker.inbox) == [] ==> r == NoRequest && worker.inbox == []
      ensures old(worker.inbox) != [] ==>
        r == Classify(codecs, assertions, old(worker.inbox)[0]) && worker.inbox == old(worker.inbox)[1..]
      ensures worker.sent == old(worker.sent)
    {
      var received := worker.WaitPayload();
      match received
      case Fails(reason) =>
        r := Invalid(InvalidRequestWrapper(TransportError(reason)));
      case Delivered(payload) =>
        if payload.None? || EmptyPayload(payload.value) {
          r := NoRequest;
        } else {
          var made := Factory.CreateFromPayload(codecs, assertions, payload.value);
          if made.Success? {
            r := Got(made.value);
          } else {
            r := Invalid(InvalidRequestWrapper(DecodeError(made.error)));
          }
        }
    }
  }
}
