/**
 * `RoadRunner\Centrifugo\RequestFactory::createFromPayload` of the flat
 * layout. It follows the namespaced factory step by step but decodes JSON
 * without JSON_THROW_ON_ERROR: an invalid header reads as null, an invalid
 * sub-field as [].
 */
module FlatRequestFactory {
  import opened Wrappers
  import opened Php
  import opened Json
  import opened FlatRequestTypes
  import RequestTypes
  import Requests
  import Dto = ProxyDto
  import opened Transport
  import Ns = RequestFactory

  /** `RequestType::from($type)` of the flat enum. */
  function TypeOf(tag: PhpValue): (t: Option<FlatRequestType>)
    ensures t.Some? ==> tag == PStr(Tag(t.value))
    ensures t.Some? <==> Ns.TypeOf(tag).Some?
    ensures t.Some? ==> Ns.TypeOf(tag) == Some(Namespaced(t.value))
  {
    if tag.PStr? then
      SameTagsAsNamespaced(tag.s);
      From(tag.s)
    else None
  }

  /**
   * `createConnectRequest`, flat layout: a body the decoder rejects raises;
   * otherwise the request always builds, `data` decoded leniently.
   */
  function CreateConnect(c: Dto.Codecs, body: string, headers: PhpArray): (r: Result<Requests.Request, Ns.DecodeError>)
    ensures c.proto.decodeConnect(body).None? ==> r == Failure(Ns.MalformedBody)
    ensures c.proto.decodeConnect(body).Some? ==>
      var m := c.proto.decodeConnect(body).value;
      r == Success(Requests.Connect(m.client, m.transport, m.protocol, m.encoding, DecodeFieldLenient(c.json, m.data),
                                    Some(m.name), Some(m.version), m.channels, headers))
  {
    var m :- Ns.Unmarshal(c.proto.decodeConnect, body);
    Success(Requests.Connect(m.client, m.transport, m.protocol, m.encoding, DecodeFieldLenient(c.json, m.data),
                             Some(m.name), Some(m.version), m.channels, headers))
  }

  function CreateRefresh(c: Dto.Codecs, body: string, headers: PhpArray): (r: Result<Requests.Request, Ns.DecodeError>)
    ensures c.proto.decodeRefresh(body).None? ==> r == Failure(Ns.MalformedBody)
    ensures c.proto.decodeRefresh(body).Some? ==>
      var m := c.proto.decodeRefresh(body).value;
      r == Success(Requests.Refresh(m.client, m.transport, m.protocol, m.encoding, m.user,
                                    DecodeFieldLenient(c.json, m.meta), headers))
  {
    var m :- Ns.Unmarshal(c.proto.decodeRefresh, body);
    Success(Requests.Refresh(m.client, m.transport, m.protocol, m.encoding, m.user,
                             DecodeFieldLenient(c.json, m.meta), headers))
  }

  function CreateSubscribe(c: Dto.Codecs, body: string, headers: PhpArray): (r: Result<Requests.Request, Ns.DecodeError>)
    ensures c.proto.decodeSubscribe(body).None? ==> r == Failure(Ns.MalformedBody)
    ensures c.proto.decodeSubscribe(body).Some? ==>
      var m := c.proto.decodeSubscribe(body).value;
      r == Success(Requests.Subscribe(m.client, m.transport, m.protocol, m.encoding, m.user, m.channel, m.token,
                                      DecodeFieldLenient(c.json, m.meta), DecodeFieldLenient(c.json, m.data), headers))
  {
    var m :- Ns.Unmarshal(c.proto.decodeSubscribe, body);
    Success(Requests.Subscribe(m.client, m.transport, m.protocol, m.encoding, m.user, m.channel, m.token,
                               DecodeFieldLenient(c.json, m.meta), DecodeFieldLenient(c.json, m.data), headers))
  }

  /** `getData()` of a built `SubscribeRequest`: the `data` field, leniently decoded. */
  lemma GetDataReadsDecodedData(c: Dto.Codecs, body: string, headers: PhpArray)
    ensures CreateSubscribe(c, body, headers).Success? <==> c.proto.decodeSubscribe(body).Some?
    ensures CreateSubscribe(c, body, headers).Success? ==>
      Requests.GetData(CreateSubscribe(c, body, headers).value)
      == DecodeFieldLenient(c.json, c.proto.decodeSubscribe(body).value.data)
  {
  }

  function CreatePublish(c: Dto.Codecs, body: string, headers: PhpArray): (r: Result<Requests.Request, Ns.DecodeError>)
    ensures c.proto.decodePublish(body).None? ==> r == Failure(Ns.MalformedBody)
    ensures c.proto.decodePublish(body).Some? ==>
      var m := c.proto.decodePublish(body).value;
      r == Success(Requests.Publish(m.client, m.transport, m.protocol, m.encoding, m.user, m.channel,
                                    DecodeFieldLenient(c.json, m.meta), DecodeFieldLenient(c.json, m.data), headers))
  {
    var m :- Ns.Unmarshal(c.proto.decodePublish, body);
    Success(Requests.Publish(m.client, m.transport, m.protocol, m.encoding, m.user, m.channel,
                             DecodeFieldLenient(c.json, m.meta), DecodeFieldLenient(c.json, m.data), headers))
  }

  function CreateRPC(c: Dto.Codecs, body: string, headers: PhpArray): (r: Result<Requests.Request, Ns.DecodeError>)
    ensures c.proto.decodeRPC(body).None? ==> r == Failure(Ns.MalformedBody)
    ensures c.proto.decodeRPC(body).Some? ==>
      var m := c.proto.decodeRPC(body).value;
      r == Success(Requests.RPC(m.client, m.transport, m.protocol, m.encoding, m.user, Some(m.methodName),
                                DecodeFieldLenient(c.json, m.meta), DecodeFieldLenient(c.json, m.data), headers))
  {
    var m :- Ns.Unmarshal(c.proto.decodeRPC, body);
    Success(Requests.RPC(m.client, m.transport, m.protocol, m.encoding, m.user, Some(m.methodName),
                         DecodeFieldLenient(c.json, m.meta), DecodeFieldLenient(c.json, m.data), headers))
  }

  /**
   * The `match` on the type: it fails exactly when the tag's decoder
   * rejects the body, and builds a request of that type carrying the header.
   */
  function Create(t: FlatRequestType, c: Dto.Codecs, body: string, headers: PhpArray): (r: Result<Requests.Request, Ns.DecodeError>)
    ensures r.Failure? <==> !Ns.BodyDecodes(c.proto, Namespaced(t), body)
    ensures r.Failure? ==> r.error == Ns.MalformedBody
    ensures r.Success? ==> RequestTypes.CreateFrom(r.value) == Namespaced(t) && r.value.headers == headers
  {
    match t
    case Connect => CreateConnect(c, body, headers)
    case Refresh => CreateRefresh(c, body, headers)
    case Subscribe => CreateSubscribe(c, body, headers)
    case Publish => CreatePublish(c, body, headers)
    case RPC => CreateRPC(c, body, headers)
  }

  /**
   * A sub-field of invalid JSON, which the namespaced factory rejects, reads
   * as [] in the flat one, and the request is still built.
   */
  lemma InvalidFieldReadsEmpty(c: Dto.Codecs, body: string, headers: PhpArray)
    ensures c.proto.decodeConnect(body).Some? && DecodeField(c.json, c.proto.decodeConnect(body).value.data).Failure?
      ==> CreateConnect(c, body, headers).Success? && CreateConnect(c, body, headers).value.data == []
    ensures c.proto.decodeRefresh(body).Some? && DecodeField(c.json, c.proto.decodeRefresh(body).value.meta).Failure?
      ==> CreateRefresh(c, body, headers).Success? && CreateRefresh(c, body, headers).value.meta == []
    ensures c.proto.decodeSubscribe(body).Some? ==>
      var m := c.proto.decodeSubscribe(body).value;
      && (DecodeField(c.json, m.meta).Failure? ==> CreateSubscribe(c, body, headers).value.meta == [])
      && (DecodeField(c.json, m.data).Failure? ==> CreateSubscribe(c, body, headers).value.data == [])
    ensures c.proto.decodePublish(body).Some? ==>
      var m := c.proto.decodePublish(body).value;
      && (DecodeField(c.json, m.meta).Failure? ==> CreatePublish(c, body, headers).value.meta == [])
      && (DecodeField(c.json, m.data).Failure? ==> CreatePublish(c, body, headers).value.data == [])
    ensures c.proto.decodeRPC(body).Some? ==>
      var m := c.proto.decodeRPC(body).value;
      && (DecodeField(c.json, m.meta).Failure? ==> CreateRPC(c, body, headers).value.meta == [])
      && (DecodeField(c.json, m.data).Failure? ==> CreateRPC(c, body, headers).value.data == [])
  {
  }

  /**
   * `createFromPayload`, flat layout. It never raises a JSON error: the only
   * failures are an unsupported tag (an invalid header gives 'unknown'), the
   * body assertion and the protobuf decoder. A request it builds is of the
   * tag's type and carries the header map unchanged.
   */
  function CreateFromPayload(c: Dto.Codecs, assertions: bool, p: Payload): (r: Result<Requests.Request, Ns.DecodeError>)
    ensures r.Failure? ==> r.error.UnsupportedType? || r.error.EmptyBody? || r.error.MalformedBody?
    ensures c.json.decode(p.header).None? ==> r == Failure(Ns.UnsupportedType(PStr("unknown")))
    ensures TypeOf(RawTagOf(c, p)).None? ==> r == Failure(Ns.UnsupportedType(RawTagOf(c, p)))
    ensures TypeOf(RawTagOf(c, p)).Some? && assertions && p.body == "" ==> r == Failure(Ns.EmptyBody)
    ensures TypeOf(RawTagOf(c, p)).Some? && !(assertions && p.body == "") ==>
      r == Create(TypeOf(RawTagOf(c, p)).value, c, p.body, Ns.HeaderMap(DecodeLenient(c.json, p.header)))
    ensures r.Success? ==>
      var h := c.json.decode(p.header).value;
      && h.PArr?
      && Ns.TypeOf(RawTagOf(c, p)) == Some(RequestTypes.CreateFrom(r.value))
      && r.value.headers == h.entries
  {
    var h := DecodeLenient(c.json, p.header);
    var tag := Ns.RawTag(h);
    match TypeOf(tag)
    case None => Failure(Ns.UnsupportedType(tag))
    case Some(t) =>
      if assertions && p.body == "" then Failure(Ns.EmptyBody)
      else
        Ns.RecognisedTagComesFromArray(h);
        var r := Create(t, c, p.body, Ns.HeaderMap(h));
        assert r.Success? ==> RequestTypes.CreateFrom(r.value) == Namespaced(t) && r.value.headers == h.entries;
        r
  }

  /** The tag the flat factory reads: from the leniently decoded header. */
  function RawTagOf(c: Dto.Codecs, p: Payload): PhpValue {
    Ns.RawTag(DecodeLenient(c.json, p.header))
  }

  /**
   * The two layouts agree wherever the namespaced one succeeds; where it
   * fails on JSON, the flat one either rejects the tag 'unknown' (a bad
   * header) or goes on to build a request (a bad sub-field becomes []).
   */
  lemma FlatExtendsNamespaced(c: Dto.Codecs, assertions: bool, p: Payload)
    ensures Ns.CreateFromPayload(c, assertions, p).Success? ==>
      CreateFromPayload(c, assertions, p) == Ns.CreateFromPayload(c, assertions, p)
    ensures Ns.CreateFromPayload(c, assertions, p) == Failure(Ns.MalformedHeader) ==>
      CreateFromPayload(c, assertions, p) == Failure(Ns.UnsupportedType(PStr("unknown")))
    ensures Ns.CreateFromPayload(c, assertions, p) == Failure(Ns.MalformedField) ==>
      CreateFromPayload(c, assertions, p).Success?
    ensures Ns.CreateFromPayload(c, assertions, p).Failure? && Ns.CreateFromPayload(c, assertions, p).error != Ns.MalformedField
            && Ns.CreateFromPayload(c, assertions, p).error != Ns.MalformedHeader ==>
      CreateFromPayload(c, assertions, p) == Ns.CreateFromPayload(c, assertions, p)
  {
    var hs := c.json.decode(p.header);
    if hs.Some? {
      var h := hs.value;
      var tag := Ns.RawTag(h);
      if TypeOf(tag).Some? && !(assertions && p.body == "") {
        var t := TypeOf(tag).value;
        Ns.RecognisedTagComesFromArray(h);
        match t
        case Connect =>
        case Refresh =>
        case Subscribe =>
        case Publish =>
        case RPC =>
      }
    }
  }
}
