/**
 * `Request\RequestFactory::createFromPayload` of the namespaced layout:
 * decode the header JSON, pick the request type from `headers['type'][0]`,
 * decode the protobuf body and build the typed request, decoding its JSON
 * sub-fields. Every exception it raises is a Failure here.
 */
module RequestFactory {
  import opened Wrappers
  import opened Php
  import opened Json
  import opened RequestTypes
  import Requests
  import Dto = ProxyDto
  import opened Transport

  datatype DecodeError =
    | MalformedHeader             // \JsonException from the header
    | UnsupportedType(tag: PhpValue)  // InvalidRequestTypeException naming the tag
    | EmptyBody                   // the failed `\assert($payload->body !== '')`
    | MalformedBody               // the protobuf decoder's exception
    | MalformedField              // \JsonException from a `data` or `meta` field

  /** The message of InvalidRequestTypeException for a string tag. */
  function UnsupportedTypeMessage(tag: string): string {
    "Request type `" + tag + "` is not supported"
  }

  /**
   * `$headers['type'][0] ?? 'unknown'`: element 0 of the header's `type`
   * list; `'unknown'` when the header has no `type`, or `type` has no
   * non-null element 0. A `type` given as a plain string yields its first
   * character.
   */
  function RawTag(headers: PhpValue): (tag: PhpValue)
    ensures tag != PNull
    ensures Index(headers, StrKey("type")).None? ==> tag == PStr("unknown")
    ensures headers.PArr? && Get(headers.entries, StrKey("type")).Some?
            && Get(headers.entries, StrKey("type")).value.PArr? ==>
      var l := Get(headers.entries, StrKey("type")).value.entries;
      && (Get(l, IntKey(0)).Some? && Get(l, IntKey(0)).value != PNull ==> tag == Get(l, IntKey(0)).value)
      && (Get(l, IntKey(0)).None? || Get(l, IntKey(0)) == Some(PNull) ==> tag == PStr("unknown"))
    ensures headers.PArr? && Get(headers.entries, StrKey("type")).Some?
            && Get(headers.entries, StrKey("type")).value.PStr? ==>
      var s := Get(headers.entries, StrKey("type")).value.s;
      tag == if s == [] then PStr("unknown") else PStr([s[0]])
  {
    Coalesce(IndexOpt(Index(headers, StrKey("type")), IntKey(0)), PStr("unknown"))
  }

  /** `RequestType::from($type)`: a string-backed enum accepts only its five strings. */
  function TypeOf(tag: PhpValue): (t: Option<RequestType>)
    ensures t.Some? <==> tag.PStr? && tag.s in AllTags
    ensures t.Some? ==> tag == PStr(Tag(t.value))
  {
    if tag.PStr? then From(tag.s) else None
  }

  /** A recognised tag can only be read out of an array: the header map. */
  lemma RecognisedTagComesFromArray(headers: PhpValue)
    requires TypeOf(RawTag(headers)).Some?
    ensures headers.PArr?
  {
  }

  /**
   * A `type` header sent as a plain string is never recognised: its first
   * character is not a tag.
   */
  lemma StringTypeIsUnsupported(headers: PhpArray)
    requires Get(headers, StrKey("type")).Some? && Get(headers, StrKey("type")).value.PStr?
    ensures TypeOf(RawTag(PArr(headers))).None?
  {
    var s := Get(headers, StrKey("type")).value.s;
    var tag := if s == [] then "unknown" else [s[0]];
    assert RawTag(PArr(headers)) == PStr(tag);
    assert tag !in AllTags by {
      if s != [] {
        forall u | u in AllTags ensures u != tag { assert |u| > 1; }
      }
    }
  }

  /** The header map: `headers` is always an array once a type is recognised. */
  function HeaderMap(headers: PhpValue): PhpArray {
    if headers.PArr? then headers.entries else []
  }

  /** A JSON sub-field under JSON_THROW_ON_ERROR. */
  function Field(c: JsonCodec, raw: string): (r: Result<PhpArray, DecodeError>)
    ensures r.Success? <==> DecodeField(c, raw).Success?
    ensures r.Success? ==> r.value == DecodeField(c, raw).value
    ensures r.Failure? ==> r.error == MalformedField
  {
    match DecodeField(c, raw)
    case Success(a) => Success(a)
    case Failure(_) => Failure(MalformedField)
  }

  /** `unmarshalRequestBody`: the protobuf decoder, whose exception is MalformedBody. */
  function Unmarshal<M>(decode: string -> Option<M>, body: string): (r: Result<M, DecodeError>)
    ensures r.Success? <==> decode(body).Some?
    ensures r.Success? ==> r.value == decode(body).value
    ensures r.Failure? ==> r.error == MalformedBody
  {
    match decode(body)
    case Some(m) => Success(m)
    case None => Failure(MalformedBody)
  }

  // ----- the five builders -----

  /**
   * `createConnectRequest`: a body the decoder rejects raises; otherwise the
   * scalars are the message's, `data` is the decoded field (raising on
   * invalid JSON), and `name`/`version` are always present.
   */
  function CreateConnect(c: Dto.Codecs, body: string, headers: PhpArray): (r: Result<Requests.Request, DecodeError>)
    ensures c.proto.decodeConnect(body).None? ==> r == Failure(MalformedBody)
    ensures c.proto.decodeConnect(body).Some? ==>
      var m := c.proto.decodeConnect(body).value;
      && (Field(c.json, m.data).Failure? ==> r == Failure(MalformedField))
      && (Field(c.json, m.data).Success? ==>
            r == Success(Requests.Connect(m.client, m.transport, m.protocol, m.encoding, Field(c.json, m.data).value,
                                          Some(m.name), Some(m.version), m.channels, headers)))
  {
    var m :- Unmarshal(c.proto.decodeConnect, body);
    var data :- Field(c.json, m.data);
    Success(Requests.Connect(m.client, m.transport, m.protocol, m.encoding, data,
                             Some(m.name), Some(m.version), m.channels, headers))
  }

  /** `createRefreshRequest`: as Connect, with `meta` the one JSON field. */
  function CreateRefresh(c: Dto.Codecs, body: string, headers: PhpArray): (r: Result<Requests.Request, DecodeError>)
    ensures c.proto.decodeRefresh(body).None? ==> r == Failure(MalformedBody)
    ensures c.proto.decodeRefresh(body).Some? ==>
      var m := c.proto.decodeRefresh(body).value;
      && (Field(c.json, m.meta).Failure? ==> r == Failure(MalformedField))
      && (Field(c.json, m.meta).Success? ==>
            r == Success(Requests.Refresh(m.client, m.transport, m.protocol, m.encoding, m.user,
                                          Field(c.json, m.meta).value, headers)))
  {
    var m :- Unmarshal(c.proto.decodeRefresh, body);
    var meta :- Field(c.json, m.meta);
    Success(Requests.Refresh(m.client, m.transport, m.protocol, m.encoding, m.user, meta, headers))
  }

  /** `createSubscribeRequest`: `meta` and `data` decoded; either one invalid raises. */
  function CreateSubscribe(c: Dto.Codecs, body: string, headers: PhpArray): (r: Result<Requests.Request, DecodeError>)
    ensures c.proto.decodeSubscribe(body).None? ==> r == Failure(MalformedBody)
    ensures c.proto.decodeSubscribe(body).Some? ==>
      var m := c.proto.decodeSubscribe(body).value;
      && (Field(c.json, m.meta).Failure? || Field(c.json, m.data).Failure? ==> r == Failure(MalformedField))
      && (Field(c.json, m.meta).Success? && Field(c.json, m.data).Success? ==>
            r == Success(Requests.Subscribe(m.client, m.transport, m.protocol, m.encoding, m.user, m.channel, m.token,
                                            Field(c.json, m.meta).value, Field(c.json, m.data).value, headers)))
  {
    var m :- Unmarshal(c.proto.decodeSubscribe, body);
    var meta :- Field(c.json, m.meta);
    var data :- Field(c.json, m.data);
    Success(Requests.Subscribe(m.client, m.transport, m.protocol, m.encoding, m.user, m.channel,
                               m.token, meta, data, headers))
  }

  /** `createPublishRequest`: `meta` and `data` decoded; either one invalid raises. */
  function CreatePublish(c: Dto.Codecs, body: string, headers: PhpArray): (r: Result<Requests.Request, DecodeError>)
    ensures c.proto.decodePublish(body).None? ==> r == Failure(MalformedBody)
    ensures c.proto.decodePublish(body).Some? ==>
      var m := c.proto.decodePublish(body).value;
      && (Field(c.json, m.meta).Failure? || Field(c.json, m.data).Failure? ==> r == Failure(MalformedField))
      && (Field(c.json, m.meta).Success? && Field(c.json, m.data).Success? ==>
            r == Success(Requests.Publish(m.client, m.transport, m.protocol, m.encoding, m.user, m.channel,
                                          Field(c.json, m.meta).value, Field(c.json, m.data).value, headers)))
  {
    var m :- Unmarshal(c.proto.decodePublish, body);
    var meta :- Field(c.json, m.meta);
    var data :- Field(c.json, m.data);
    Success(Requests.Publish(m.client, m.transport, m.protocol, m.encoding, m.user, m.channel,
                             meta, data, headers))
  }

  /** `createRPCRequest`: `meta` and `data` decoded; the method name always present. */
  function CreateRPC(c: Dto.Codecs, body: string, headers: PhpArray): (r: Result<Requests.Request, DecodeError>)
    ensures c.proto.decodeRPC(body).None? ==> r == Failure(MalformedBody)
    ensures c.proto.decodeRPC(body).Some? ==>
      var m := c.proto.decodeRPC(body).value;
      && (Field(c.json, m.meta).Failure? || Field(c.json, m.data).Failure? ==> r == Failure(MalformedField))
      && (Field(c.json, m.meta).Success? && Field(c.json, m.data).Success? ==>
            r == Success(Requests.RPC(m.client, m.transport, m.protocol, m.encoding, m.user, Some(m.methodName),
                                      Field(c.json, m.meta).value, Field(c.json, m.data).value, headers)))
  {
    var m :- Unmarshal(c.proto.decodeRPC, body);
    var meta :- Field(c.json, m.meta);
    var data :- Field(c.json, m.data);
    Success(Requests.RPC(m.client, m.transport, m.protocol, m.encoding, m.user, Some(m.methodName),
                         meta, data, headers))
  }

  /**
   * `getData()` of a built Subscribe or RPC request is the `data` field of
   * the protobuf message, JSON-decoded.
   */
  lemma GetDataReadsDecodedData(c: Dto.Codecs, body: string, headers: PhpArray)
    ensures CreateSubscribe(c, body, headers).Success? ==>
      && c.proto.decodeSubscribe(body).Some?
      && Field(c.json, c.proto.decodeSubscribe(body).value.data).Success?
      && Requests.GetData(CreateSubscribe(c, body, headers).value)
         == Field(c.json, c.proto.decodeSubscribe(body).value.data).value
    ensures CreateRPC(c, body, headers).Success? ==>
      && c.proto.decodeRPC(body).Some?
      && Field(c.json, c.proto.decodeRPC(body).value.data).Success?
      && Requests.GetData(CreateRPC(c, body, headers).value)
         == Field(c.json, c.proto.decodeRPC(body).value.data).value
  {
  }

  /** The protobuf decoder of the tag's message type accepts the body. */
  predicate BodyDecodes(proto: Dto.ProtoCodec, t: RequestType, body: string) {
    match t
    case Connect => proto.decodeConnect(body).Some?
    case Refresh => proto.decodeRefresh(body).Some?
    case Subscribe => proto.decodeSubscribe(body).Some?
    case Publish => proto.decodePublish(body).Some?
    case RPC => proto.decodeRPC(body).Some?
  }

  /**
   * The `match` on the type: a request of exactly that type carrying the
   * header map; the body error when its decoder rejects the body; otherwise
   * only a sub-field's JSON error.
   */
  function Create(t: RequestType, c: Dto.Codecs, body: string, headers: PhpArray): (r: Result<Requests.Request, DecodeError>)
    ensures !BodyDecodes(c.proto, t, body) ==> r == Failure(MalformedBody)
    ensures BodyDecodes(c.proto, t, body) && r.Failure? ==> r.error == MalformedField
    ensures r.Success? ==> CreateFrom(r.value) == t && r.value.headers == headers
  {
    match t
    case Connect => CreateConnect(c, body, headers)
    case Refresh => CreateRefresh(c, body, headers)
    case Subscribe => CreateSubscribe(c, body, headers)
    case Publish => CreatePublish(c, body, headers)
    case RPC => CreateRPC(c, body, headers)
  }

  /**
   * `createFromPayload`. `assertions` says whether PHP assertions are
   * enabled (`zend.assertions = 1`); when they are not, the body check is
   * compiled out and an empty body goes to the protobuf decoder.
   *
   * The checks run in the source's order: header JSON, then the type tag,
   * then the body; the request built is always of the tag's type and
   * carries the decoded header map unchanged.
   */
  function CreateFromPayload(c: Dto.Codecs, assertions: bool, p: Payload): (r: Result<Requests.Request, DecodeError>)
    ensures c.json.decode(p.header).None? ==> r == Failure(MalformedHeader)
    ensures c.json.decode(p.header).Some? && TypeOf(RawTag(c.json.decode(p.header).value)).None?
      ==> r == Failure(UnsupportedType(RawTag(c.json.decode(p.header).value)))
    ensures c.json.decode(p.header).Some? && TypeOf(RawTag(c.json.decode(p.header).value)).Some?
            && assertions && p.body == ""
      ==> r == Failure(EmptyBody)
    ensures c.json.decode(p.header).Some? && TypeOf(RawTag(c.json.decode(p.header).value)).Some?
            && !(assertions && p.body == "") ==>
      var h := c.json.decode(p.header).value;
      var t := TypeOf(RawTag(h)).value;
      && r == Create(t, c, p.body, HeaderMap(h))
      && (!BodyDecodes(c.proto, t, p.body) ==> r == Failure(MalformedBody))
    ensures r.Success? ==>
      var h := c.json.decode(p.header).value;
      && h.PArr?
      && TypeOf(RawTag(h)) == Some(CreateFrom(r.value))
      && r.value.headers == h.entries
  {
    var h :- match DecodeStrict(c.json, p.header)
             case Success(v) => Success(v)
             case Failure(_) => Failure(MalformedHeader);
    var tag := RawTag(h);
    match TypeOf(tag)
    case None => Failure(UnsupportedType(tag))
    case Some(t) =>
      if assertions && p.body == "" then Failure(EmptyBody)
      else
        RecognisedTagComesFromArray(h);
        var r := Create(t, c, p.body, HeaderMap(h));
        assert r.Success? ==> CreateFrom(r.value) == t && r.value.headers == h.entries;
        r
  }

  // ----- the inverse direction: what the proxy sends for a given request -----

  /** The header map's JSON fields and optional names can be sent and read back. */
  predicate Encodable(c: JsonCodec, r: Requests.Request) {
    && (r.Connect? ==> (r.data == [] || RoundTrips(c, r.data)) && r.name.Some? && r.version.Some?)
    && (r.RPC? ==> r.methodName.Some?)
    && (!r.Connect? ==> r.meta == [] || RoundTrips(c, r.meta))
    && (!r.Refresh? && !r.Connect? ==> r.data == [] || RoundTrips(c, r.data))
  }

  /** The body message that carries `r`, for the protobuf decoder of its type. */
  predicate Carries(c: Dto.Codecs, body: string, r: Requests.Request) {
    match r
    case Connect(client, transport, protocol, encoding, data, name, version, channels, _) =>
      c.proto.decodeConnect(body) == Some(Dto.ConnectRequest(
        client, transport, protocol, encoding, name.GetOr(""), version.GetOr(""),
        EncodeFieldLenient(c.json, data), channels))
    case Refresh(client, transport, protocol, encoding, user, meta, _) =>
      c.proto.decodeRefresh(body) == Some(Dto.RefreshRequest(
        client, transport, protocol, encoding, user, EncodeFieldLenient(c.json, meta)))
    case Subscribe(client, transport, protocol, encoding, user, channel, token, meta, data, _) =>
      c.proto.decodeSubscribe(body) == Some(Dto.SubscribeRequest(
        client, transport, protocol, encoding, user, channel, token,
        EncodeFieldLenient(c.json, meta), EncodeFieldLenient(c.json, data)))
    case Publish(client, transport, protocol, encoding, user, channel, meta, data, _) =>
      c.proto.decodePublish(body) == Some(Dto.PublishRequest(
        client, transport, protocol, encoding, user, channel,
        EncodeFieldLenient(c.json, meta), EncodeFieldLenient(c.json, data)))
    case RPC(client, transport, protocol, encoding, user, methodName, meta, data, _) =>
      c.proto.decodeRPC(body) == Some(Dto.RPCRequest(
        client, transport, protocol, encoding, user, methodName.GetOr(""),
        EncodeFieldLenient(c.json, meta), EncodeFieldLenient(c.json, data)))
  }

  /**
   * The factory inverts the proxy: a payload whose header is the request's
   * header map, with the request's tag as element 0 of its `type` list, and
   * whose body carries its fields,
   * decodes back to exactly that request.
   */
  lemma CreateFromPayloadInverts(c: Dto.Codecs, assertions: bool, p: Payload, r: Requests.Request, typeList: PhpArray)
    requires Encodable(c.json, r)
    requires c.json.decode(p.header) == Some(PArr(r.headers))
    requires Get(r.headers, StrKey("type")) == Some(PArr(typeList))
    requires Get(typeList, IntKey(0)) == Some(PStr(Tag(CreateFrom(r))))
    requires p.body != ""
    requires Carries(c, p.body, r)
    ensures CreateFromPayload(c, assertions, p) == Success(r)
  {
    TagBijection(CreateFrom(r), CreateFrom(r));
    var t := CreateFrom(r);
    assert RawTag(PArr(r.headers)) == PStr(Tag(t));
    assert TypeOf(RawTag(PArr(r.headers))) == Some(t);
    match r
    case Connect(_, _, _, _, data, _, _, _, _) =>
      assert Field(c.json, EncodeFieldLenient(c.json, data)) == Success(data);
    case Refresh(_, _, _, _, _, meta, _) =>
      assert Field(c.json, EncodeFieldLenient(c.json, meta)) == Success(meta);
    case Subscribe(_, _, _, _, _, _, _, meta, data, _) =>
      assert Field(c.json, EncodeFieldLenient(c.json, meta)) == Success(meta);
      assert Field(c.json, EncodeFieldLenient(c.json, data)) == Success(data);
    case Publish(_, _, _, _, _, _, meta, data, _) =>
      assert Field(c.json, EncodeFieldLenient(c.json, meta)) == Success(meta);
      assert Field(c.json, EncodeFieldLenient(c.json, data)) == Success(data);
    case RPC(_, _, _, _, _, _, meta, data, _) =>
      assert Field(c.json, EncodeFieldLenient(c.json, meta)) == Success(meta);
      assert Field(c.json, EncodeFieldLenient(c.json, data)) == Success(data);
  }
}
