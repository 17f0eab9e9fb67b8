/** The message envelope: the broker driver's basic properties, the normalising
    `MessageProperties` constructor, and an inbound delivery. */
module Envelope {
  import opened Wrappers
  import opened Values

  /** The driver's basic properties of a message, as sent or as received. */
  datatype BasicProperties = BasicProperties(
    contentType: Option<string>,
    contentEncoding: Option<string>,
    timestamp: Option<int>,
    correlationId: Option<string>,
    replyTo: Option<string>,
    messageId: Option<string>,
    userId: Option<string>,
    appId: Option<string>,
    deliveryMode: Option<int>,
    headers: Option<map<string, Value>>)

  /** One message handed to a consumer callback: its properties, the delivery
      tag of the `method` frame, and the raw body bytes. */
  datatype Delivery = Delivery(props: BasicProperties, deliveryTag: nat, body: seq<byte>)

  /** Whether the message carries the broker's `timestamp_in_ms` header. */
  predicate HasBrokerTimestamp(p: BasicProperties)
  {
    p.headers.Some? && "timestamp_in_ms" in p.headers.value
  }

  /** Python's `int(x)` on a float: truncation toward zero. */
  function Truncate(x: real): (r: int)
    ensures 0.0 <= x ==> 0 <= r && r as real <= x < r as real + 1.0
    ensures x < 0.0 ==> r <= 0 && r as real - 1.0 < x <= r as real
  {
    if x >= 0.0 then x.Floor else -((-x).Floor)
  }

  /** The timestamp used when none is given, from the clock reading `now` in seconds. */
  function DefaultTimestamp(now: real): real
  {
    (now + 0.5) * 1000.0
  }

  /** `str(x) if x is not None else None`. */
  function StrOrNone(x: Option<Scalar>): Option<string>
  {
    match x
    case None => None
    case Some(v) => Some(PyStr(v))
  }

  /** The `MessageProperties` constructor. `now` is the clock reading (seconds)
      taken when no timestamp is passed. The timestamp is always present and is
      an int; the three ids are stringified; the rest passes through; the
      constructor never sets a delivery mode or headers. */
  function MessageProperties(
    now: real,
    contentType: Option<string> := None,
    contentEncoding: Option<string> := None,
    timestamp: Option<real> := None,
    correlationId: Option<string> := None,
    replyTo: Option<string> := None,
    messageId: Option<Scalar> := None,
    userId: Option<Scalar> := None,
    appId: Option<Scalar> := None): (p: BasicProperties)
    ensures p.timestamp.Some?
    ensures var t := if timestamp.Some? then timestamp.value else DefaultTimestamp(now);
      p.timestamp.value == Truncate(t)
    ensures p.contentType == contentType && p.contentEncoding == contentEncoding
    ensures p.correlationId == correlationId && p.replyTo == replyTo
    ensures p.messageId.Some? <==> messageId.Some?
    ensures p.userId.Some? <==> userId.Some?
    ensures p.appId.Some? <==> appId.Some?
    ensures messageId.Some? && messageId.value.SInt? ==> ParseInt(p.messageId.value) == Some(messageId.value.i)
    ensures userId.Some? && userId.value.SInt? ==> ParseInt(p.userId.value) == Some(userId.value.i)
    ensures appId.Some? && appId.value.SInt? ==> ParseInt(p.appId.value) == Some(appId.value.i)
    ensures messageId.Some? && messageId.value.SStr? ==> p.messageId.value == messageId.value.s
    ensures userId.Some? && userId.value.SStr? ==> p.userId.value == userId.value.s
    ensures appId.Some? && appId.value.SStr? ==> p.appId.value == appId.value.s
    ensures p.deliveryMode.None? && p.headers.None?
  {
    var ts := if timestamp.None? then DefaultTimestamp(now) else timestamp.value;
    BasicProperties(
      contentType, contentEncoding, Some(Truncate(ts)), correlationId, replyTo,
      StrOrNone(messageId), StrOrNone(userId), StrOrNone(appId), None, None)
  }

  /** The default timestamp is the clock reading in milliseconds plus 500 ms, cut to
      an int: it is not the reading rounded to the nearest millisecond. */
  lemma DefaultTimestampIsHalfSecondAhead(now: real)
    requires now >= 0.0
    ensures MessageProperties(now).timestamp == Some((now * 1000.0 + 500.0).Floor)
    ensures (now * 1000.0).Floor + 500 == MessageProperties(now).timestamp.value
  {
    assert DefaultTimestamp(now) == now * 1000.0 + 500.0;
  }

  /** `message_id=0`, as the client and the publisher pass it, goes out as `"0"`. */
  lemma MessageIdZeroIsStringified(now: real)
    ensures MessageProperties(now, messageId := Some(SInt(0))).messageId == Some("0")
  {
  }
}
