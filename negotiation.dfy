/** Content negotiation: how a payload's kind picks `content_type`,
    `content_encoding` and the body on the way out, and how the `content_type`
    tag picks a decoder on the way in. The serializer, the text codec and the
    `ContentType` constants are not part of this model; they are parameters. */
module Negotiation {
  import opened Wrappers
  import opened Values

  /** The endpoint's serializer: `serialize` and `deserialize` may raise (Err),
      and it advertises its own CONTENT_TYPE and CONTENT_ENCODING. */
  datatype Serializer = Serializer(
    serialize: Value -> Result<string, string>,
    deserialize: seq<byte> -> Result<Value, string>,
    contentType: string,
    contentEncoding: string)

  /** The `ContentType` constants the decoders compare the tag against. */
  datatype ContentTypes = ContentTypes(json: string, text: string, rawBytes: string)
  {
    predicate Distinct() { json != text && json != rawBytes && text != rawBytes }
  }

  /** `str.encode('utf-8')` and `bytes.decode(encoding)` (which may raise). */
  datatype TextCodec = TextCodec(
    encodeUtf8: string -> seq<byte>,
    decode: (seq<byte>, string) -> Result<string, string>)

  /** The three values the encoders compute: `_type`, `_encoding`, `_payload`. */
  datatype Encoded = Encoded(contentType: Option<string>, contentEncoding: Option<string>, payload: Value)

  const TextPlain: string := "text/plain"
  const OctetStream: string := "application/octet-stream"
  const Utf8: string := "utf8"

  /** The kinds of payload the encoders recognise. */
  predicate IsEncodable(v: Value) { v.Dict? || v.Str? || v.Bytes? }

  /** The if/elif chain over the payload's kind shared by `RPCClient._send_data`,
      `Publisher._send_data` and the RPC server's reply encoding. An Err is the
      serializer's exception, which these callers let propagate or catch. */
  function Encode(ser: Serializer, codec: TextCodec, data: Value): (r: Result<Encoded, string>)
    ensures r.Err? <==> data.Dict? && ser.serialize(data).Err?
    ensures r.Ok? ==> (r.value.contentType.Some? <==> IsEncodable(data))
    ensures r.Ok? && !IsEncodable(data) ==> r.value == Encoded(None, None, Null)
    ensures data.Str? ==> r == Ok(Encoded(Some(TextPlain), Some(Utf8), data))
    ensures data.Bytes? ==> r == Ok(Encoded(Some(OctetStream), Some(Utf8), data))
    ensures r.Ok? && data.Dict? ==>
      r.value == Encoded(Some(ser.contentType), Some(ser.contentEncoding),
                         Bytes(codec.encodeUtf8(ser.serialize(data).value)))
  {
    match data
    case Dict(_) =>
      (match ser.serialize(data)
       case Ok(s) => Ok(Encoded(Some(ser.contentType), Some(ser.contentEncoding), Bytes(codec.encodeUtf8(s))))
       case Err(e) => Err(e))
    case Str(_) => Ok(Encoded(Some(TextPlain), Some(Utf8), data))
    case Bytes(_) => Ok(Encoded(Some(OctetStream), Some(Utf8), data))
    case _ => Ok(Encoded(None, None, Null))
  }

  /** The payload the RPC server sends when its own encoding raises. */
  function InternalServerError(msg: string): Value
  {
    Dict(map["status" := Int(501), "error" := Str("Internal server error: " + msg)])
  }

  /** The RPC server's reply encoding: `Encode` inside a try block whose handler
      replaces the payload and leaves type and encoding unset. */
  function EncodeReply(ser: Serializer, codec: TextCodec, resp: Value): Encoded
  {
    match Encode(ser, codec, resp)
    case Ok(enc) => enc
    case Err(msg) => Encoded(None, None, InternalServerError(msg))
  }

  /** What a decoder does with a tag it does not recognise: the RPC server
      deserializes as JSON, the client and the subscriber yield None. */
  datatype Fallback = DecodeAsJson | YieldNone

  /** `_deserialize_data`. An Err is the exception raised by the chosen decoder. */
  function DeserializeData(ser: Serializer, ct: ContentTypes, codec: TextCodec, fallback: Fallback,
                           data: seq<byte>, contentType: Option<string>,
                           contentEncoding: Option<string>): Result<Value, string>
  {
    var encoding := if contentEncoding.None? then Utf8 else contentEncoding.value;
    if contentType == Some(ct.json) then ser.deserialize(data)
    else if contentType == Some(ct.text) then
      (match codec.decode(data, encoding)
       case Ok(s) => Ok(Str(s))
       case Err(e) => Err(e))
    else if contentType == Some(ct.rawBytes) then Ok(Bytes(data))
    else if fallback == DecodeAsJson then ser.deserialize(data)
    else Ok(Null)
  }

  /** The try/except around `_deserialize_data` in every consumer callback:
      when decoding raises, the raw body is handed on instead. */
  function DecodeOrRaw(ser: Serializer, ct: ContentTypes, codec: TextCodec, fallback: Fallback,
                       data: seq<byte>, contentType: Option<string>,
                       contentEncoding: Option<string>): Value
  {
    match DeserializeData(ser, ct, codec, fallback, data, contentType, contentEncoding)
    case Ok(v) => v
    case Err(_) => Bytes(data)
  }

  /** Decoding is a case analysis on the tag: json deserializes, text decodes
      with the given encoding or `utf8` when none is given, raw bytes pass through
      untouched, and anything else goes to the endpoint's fallback. */
  lemma DecodeByContentType(ser: Serializer, ct: ContentTypes, codec: TextCodec, fallback: Fallback,
                            data: seq<byte>, contentType: Option<string>, contentEncoding: Option<string>)
    requires ct.Distinct()
    ensures var r := DeserializeData(ser, ct, codec, fallback, data, contentType, contentEncoding);
      && (contentType == Some(ct.json) ==> r == ser.deserialize(data))
      && (contentType == Some(ct.text) ==>
            var enc := if contentEncoding.Some? then contentEncoding.value else Utf8;
            (r.Ok? <==> codec.decode(data, enc).Ok?) &&
            (r.Ok? ==> r.value == Str(codec.decode(data, enc).value)))
      && (contentType == Some(ct.rawBytes) ==> r == Ok(Bytes(data)))
      && (contentType !in {Some(ct.json), Some(ct.text), Some(ct.rawBytes)} ==>
            r == (if fallback == DecodeAsJson then ser.deserialize(data) else Ok(Null)))
  {
  }

  /** A missing `content_encoding` decodes exactly as an explicit `utf8`. */
  lemma EncodingDefaultsToUtf8(ser: Serializer, ct: ContentTypes, codec: TextCodec, fallback: Fallback,
                               data: seq<byte>, contentType: Option<string>)
    ensures DeserializeData(ser, ct, codec, fallback, data, contentType, None)
         == DeserializeData(ser, ct, codec, fallback, data, contentType, Some(Utf8))
  {
  }

  /** The bytes the driver transmits for a payload: a str goes out UTF-8 encoded,
      bytes as they are; no other payload can be transmitted. */
  function BodyBytes(codec: TextCodec, payload: Value): (b: Option<seq<byte>>)
    ensures b.Some? <==> payload.Str? || payload.Bytes?
  {
    match payload
    case Str(s) => Some(codec.encodeUtf8(s))
    case Bytes(d) => Some(d)
    case _ => None
  }

  /** The encoders and the driver fit together exactly on the three kinds the
      encoders recognise: their bodies can be sent, while any other payload
      is left as None, which the driver refuses. The RPC server's
      internal-error record is a dict and cannot be sent either. */
  lemma EncodedBodySendable(ser: Serializer, codec: TextCodec, v: Value)
    ensures Encode(ser, codec, v).Ok? ==>
      (BodyBytes(codec, Encode(ser, codec, v).value.payload).Some? <==> IsEncodable(v))
    ensures Encode(ser, codec, v).Err? ==>
      BodyBytes(codec, EncodeReply(ser, codec, v).payload).None?
  {
  }

  /** The serializer decodes what it encoded. */
  ghost predicate SerializerInverts(ser: Serializer, codec: TextCodec)
  {
    forall v :: ser.serialize(v).Ok? ==> ser.deserialize(codec.encodeUtf8(ser.serialize(v).value)) == Ok(v)
  }

  /** UTF-8 decoding undoes UTF-8 encoding. */
  ghost predicate Utf8Inverts(codec: TextCodec)
  {
    forall s :: codec.decode(codec.encodeUtf8(s), Utf8) == Ok(s)
  }

  /** The encoder's literal tags agree with the decoder's constants. */
  predicate TagsAgree(ser: Serializer, ct: ContentTypes)
  {
    ct.Distinct() && ser.contentType == ct.json && ct.text == TextPlain && ct.rawBytes == OctetStream
  }

  /** Encoding then decoding a dict, a str or bytes gives the payload back, on
      every endpoint whatever its fallback, once the tags agree and the
      serializer and the text codec invert themselves. */
  lemma RoundTrip(ser: Serializer, ct: ContentTypes, codec: TextCodec, fallback: Fallback, v: Value)
    requires TagsAgree(ser, ct) && SerializerInverts(ser, codec) && Utf8Inverts(codec)
    requires IsEncodable(v) && Encode(ser, codec, v).Ok?
    ensures var e := Encode(ser, codec, v).value;
      && BodyBytes(codec, e.payload).Some?
      && DeserializeData(ser, ct, codec, fallback, BodyBytes(codec, e.payload).value,
                         e.contentType, e.contentEncoding) == Ok(v)
  {
    var e := Encode(ser, codec, v).value;
    match v
    case Dict(_) =>
      assert e.payload == Bytes(codec.encodeUtf8(ser.serialize(v).value));
    case Str(s) =>
      assert codec.decode(codec.encodeUtf8(s), Utf8) == Ok(s);
    case Bytes(_) =>
  }
}
