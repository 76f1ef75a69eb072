/**
 * The serialization boundary to PHP's JSON extension. `json_decode` and
 * `json_encode` are foreign; the model takes them as a JsonCodec value and
 * states every property for all codecs. Each JSON-bearing field of a request
 * or a response crosses this boundary through exactly one of the four field
 * functions below.
 */
module Json {
  import opened Wrappers
  import opened Php

  /**
   * decode: `json_decode($s, true)`, None when the text is not valid JSON.
   * encode: `json_encode($a)`, None where PHP returns false.
   */
  datatype JsonCodec = JsonCodec(decode: string -> Option<PhpValue>, encode: PhpArray -> Option<string>)

  /** `\JsonException`, raised under JSON_THROW_ON_ERROR. */
  datatype JsonException = JsonException

  /** `json_decode($s, true, 512, JSON_THROW_ON_ERROR)` */
  function DecodeStrict(c: JsonCodec, s: string): (r: Result<PhpValue, JsonException>)
    ensures r.Success? <==> c.decode(s).Some?
    ensures r.Success? ==> r.value == c.decode(s).value
  {
    match c.decode(s)
    case None => Failure(JsonException)
    case Some(v) => Success(v)
  }

  /** `json_decode($s, true)`: invalid text yields null. */
  function DecodeLenient(c: JsonCodec, s: string): (r: PhpValue)
    ensures c.decode(s).None? ==> r == PNull
    ensures DecodeStrict(c, s).Success? ==> r == DecodeStrict(c, s).value
  {
    c.decode(s).GetOr(PNull)
  }

  /**
   * A JSON sub-field of a request message, namespaced decoder:
   * `$raw ? (array)\json_decode($raw, true, 512, JSON_THROW_ON_ERROR) : []`.
   */
  function DecodeField(c: JsonCodec, raw: string): (r: Result<PhpArray, JsonException>)
    ensures Falsy(raw) ==> r == Success([])
    ensures !Falsy(raw) ==> (r.Failure? <==> c.decode(raw).None?)
    ensures !Falsy(raw) && r.Success? ==> r.value == ToArray(c.decode(raw).value)
  {
    if Falsy(raw) then Success([])
    else
      var v :- DecodeStrict(c, raw);
      Success(ToArray(v))
  }

  /**
   * A JSON sub-field of a request message, flat-layout decoder:
   * `$raw ? (array)\json_decode($raw, true) : []`. It never fails: where the
   * namespaced decoder throws, it yields [], and otherwise it agrees.
   */
  function DecodeFieldLenient(c: JsonCodec, raw: string): (r: PhpArray)
    ensures DecodeField(c, raw).Success? ==> r == DecodeField(c, raw).value
    ensures DecodeField(c, raw).Failure? ==> r == []
  {
    if Falsy(raw) then [] else ToArray(DecodeLenient(c, raw))
  }

  /** `json_encode($a, JSON_THROW_ON_ERROR)` */
  function EncodeStrict(c: JsonCodec, a: PhpArray): (r: Result<string, JsonException>)
    ensures r.Success? <==> c.encode(a).Some?
    ensures r.Success? ==> r.value == c.encode(a).value
  {
    match c.encode(a)
    case None => Failure(JsonException)
    case Some(s) => Success(s)
  }

  /**
   * `json_encode($a)` handed to a protobuf string setter: PHP's `false`
   * becomes the empty string there.
   */
  function EncodeLenient(c: JsonCodec, a: PhpArray): (r: string)
    ensures EncodeStrict(c, a).Success? ==> r == EncodeStrict(c, a).value
    ensures EncodeStrict(c, a).Failure? ==> r == ""
  {
    c.encode(a).GetOr("")
  }

  /** The codec encodes `a` to a truthy text that decodes back to `a`. */
  predicate RoundTrips(c: JsonCodec, a: PhpArray) {
    c.encode(a).Some? && !Falsy(c.encode(a).value) && c.decode(c.encode(a).value) == Some(PArr(a))
  }

  /**
   * A JSON field of a result message, namespaced mappers: an empty array
   * leaves the wire default "", a non-empty one is JSON-encoded (throwing on
   * failure). Omitting the empty array loses nothing: the request decoder
   * reads "" back as [], and reads any round-tripping array back unchanged.
   */
  function EncodeField(c: JsonCodec, a: PhpArray): (r: Result<string, JsonException>)
    ensures a == [] ==> r == Success("")
    ensures a != [] ==> r == EncodeStrict(c, a)
    ensures a == [] || RoundTrips(c, a) ==> r.Success? && DecodeField(c, r.value) == Success(a)
  {
    if a != [] then EncodeStrict(c, a) else Success("")
  }

  /** The same, flat-layout mappers: an encoding failure leaves "". */
  function EncodeFieldLenient(c: JsonCodec, a: PhpArray): (r: string)
    ensures EncodeField(c, a).Success? ==> r == EncodeField(c, a).value
    ensures EncodeField(c, a).Failure? ==> r == ""
    ensures a == [] || RoundTrips(c, a) ==> DecodeFieldLenient(c, r) == a
  {
    if a != [] then EncodeLenient(c, a) else ""
  }
}
