/** Topic delivery: the `Publisher` sends each payload to its topic on a topic
    exchange; the `Subscriber` binds its own queue to the topic, decodes each
    message, updates its arrival-rate estimate, and hands the message and its
    metadata to the `on_message` callback. */
module PubSub {
  import opened Wrappers
  import opened Values
  import opened Envelope
  import opened Negotiation
  import opened Transport
  import opened RateEstimator

  /** The exchange both ends use unless told otherwise. */
  const TopicExchange: string := "amq.topic"

  /** `ExchangeTypes.Topic`. */
  const TopicType: string := "topic"

  /** The idle expiry the subscriber asks for its queue: five minutes. */
  const SubscriberQueueExpires: int := 300000

  /** The message `_send_data` publishes: to the topic on the publisher's
      exchange, with message id 0 and no correlation or reply address. */
  function PublishAction(exchange: string, topic: string, enc: Encoded, now: real): (a: Action)
    ensures a.Publish? && a.exchange == exchange && a.routingKey == Some(topic)
    ensures a.props.messageId == Some("0") && a.props.correlationId.None? && a.props.replyTo.None?
    ensures a.props.contentType == enc.contentType && a.props.contentEncoding == enc.contentEncoding
    ensures a.body == enc.payload
  {
    Publish(exchange, Some(topic),
            MessageProperties(now, contentType := enc.contentType, contentEncoding := enc.contentEncoding,
                              messageId := Some(SInt(0))),
            enc.payload)
  }

  /** The `properties` part of the metadata handed to `on_message`. */
  datatype MessageMeta = MessageMeta(
    contentType: Option<string>,
    contentEncoding: Option<string>,
    timestampBroker: Option<Value>,
    timestampProducer: Option<int>,
    deliveryMode: Option<int>)

  /** The try block that reads a message's properties: type, encoding and
      delivery mode come first; the header lookup raises when the broker
      timestamp is missing, and then the producer timestamp stays None. */
  function MessageMetaOf(d: Delivery): MessageMeta
  {
    var p := d.props;
    if HasBrokerTimestamp(p) then
      MessageMeta(p.contentType, p.contentEncoding, Some(p.headers.value["timestamp_in_ms"]), p.timestamp,
                  p.deliveryMode)
    else
      MessageMeta(p.contentType, p.contentEncoding, None, None, p.deliveryMode)
  }

  /** The message as `on_message` receives it: decoded by its tag, None for a
      tag the subscriber does not know, the raw body when decoding raises. */
  function MessageOf(ser: Serializer, ct: ContentTypes, codec: TextCodec, d: Delivery): Value
  {
    DecodeOrRaw(ser, ct, codec, YieldNone, d.body, d.props.contentType, d.props.contentEncoding)
  }

  /** What a subscriber bound to the same topic receives is what the publisher
      published, once both sides agree on the tags and the codecs invert
      themselves; the publisher's message carries no broker timestamp of its
      own, so without one from the broker the producer timestamp is not read. */
  lemma PublishedPayloadReadBack(ser: Serializer, ct: ContentTypes, codec: TextCodec, exchange: string,
                                 topic: string, payload: Value, now: real, tag: nat)
    requires TagsAgree(ser, ct) && SerializerInverts(ser, codec) && Utf8Inverts(codec)
    requires IsEncodable(payload) && Encode(ser, codec, payload).Ok?
    ensures var a := PublishAction(exchange, topic, Encode(ser, codec, payload).value, now);
      && BodyBytes(codec, a.body).Some?
      && var d := Delivery(a.props, tag, BodyBytes(codec, a.body).value);
         && MessageOf(ser, ct, codec, d) == payload
         && MessageMetaOf(d).timestampBroker.None? && MessageMetaOf(d).timestampProducer.None?
  {
    RoundTrip(ser, ct, codec, YieldNone, payload);
  }

  class Publisher {
    const topic: string
    const exchange: string
    const ser: Serializer
    const codec: TextCodec
    const transport: AMQPTransport

    constructor(topic: string, ser: Serializer, codec: TextCodec, connParams: Option<ConnectionParameters>,
                exchange: string := TopicExchange, debug: bool := false)
      ensures this.topic == topic && this.exchange == exchange && this.ser == ser && this.codec == codec
      ensures fresh(transport) && transport.link == NoConnection && transport.log == []
      ensures transport.params == (if connParams.Some? then connParams.value else ConnectionParameters())
    {
      this.topic := topic;
      this.exchange := exchange;
      this.ser := ser;
      this.codec := codec;
      transport := new AMQPTransport(connParams, debug);
    }

    /** The rest of the source's constructor: connect, then declare the
        exchange as a topic exchange. */
    method Start(attempts: seq<ConnectOutcome>) returns (r: Result<(), Error>)
      modifies transport
      ensures ConnectVerdict(attempts).Err? ==>
        r == Err(ConnectVerdict(attempts).error) && transport.View() == old(transport.View())
      ensures ConnectVerdict(attempts).Ok? ==>
        r.Ok? && transport.link == Open &&
        transport.log == old(transport.log) + [OpenChannel, DeclareExchange(exchange, TopicType, true)]
    {
      var c := transport.Connect(attempts);
      if c.Err? {
        return Err(c.error);
      }
      r := transport.CreateExchange(exchange, TopicType);
    }

    /** `publish` (which runs `_send_data` on the connection's thread): one
        message to the topic, `now` being the clock reading for its timestamp.
        The serializer's exception propagates; a payload that is not a dict, a
        str or bytes leaves the body None, which the driver refuses. */
    method Publish(payload: Value, now: real) returns (r: Result<(), Error>)
      modifies transport
      ensures transport.link == old(transport.link)
      ensures Encode(ser, codec, payload).Err? ==>
        r == Err(SerializationError(Encode(ser, codec, payload).error)) && transport.log == old(transport.log)
      ensures Encode(ser, codec, payload).Ok? && old(transport.link) != Open ==>
        r == Err(NoChannelError(old(transport.link))) && transport.log == old(transport.log)
      ensures Encode(ser, codec, payload).Ok? && old(transport.link) == Open && !IsEncodable(payload) ==>
        r == Err(UnsendableBody) && transport.log == old(transport.log)
      ensures Encode(ser, codec, payload).Ok? && old(transport.link) == Open && IsEncodable(payload) ==>
        r.Ok? && transport.log == old(transport.log) + [PublishAction(exchange, topic, Encode(ser, codec, payload).value, now)]
    {
      var enc := Encode(ser, codec, payload);
      if enc.Err? {
        return Err(SerializationError(enc.error));
      }
      EncodedBodySendable(ser, codec, payload);
      var a := PublishAction(exchange, topic, enc.value, now);
      r := transport.BasicPublish(a.exchange, a.routingKey, a.props, a.body, codec);
    }
  }

  /** The user's `on_message` callback: what it does with a message is not
      part of this model, only which message and metadata it receives and
      whether it raises (an Err). */
  type MessageHandler = (Value, MessageMeta) -> Result<(), string>

  /** The exception the driver raises for a queue name that is not a str. */
  const QueueNameError: Error := TypeError("queue must be a str")

  class Subscriber {
    const topic: string
    const exchange: string
    const queueSize: int
    const messageTtl: int
    const overflow: string
    const ser: Serializer
    const ct: ContentTypes
    const codec: TextCodec
    const onMessage: Option<MessageHandler>
    const transport: AMQPTransport
    var queueName: Option<string>
    var lastMsgTs: Option<real>
    var msgFreqFifo: seq<real>
    var hz: real

    /** The estimator's state. */
    function Rate(): RateState
      reads this
    {
      RateState(lastMsgTs, msgFreqFifo, hz)
    }

    constructor(topic: string, ser: Serializer, ct: ContentTypes, codec: TextCodec,
                onMessage: Option<MessageHandler>, connParams: Option<ConnectionParameters>,
                exchange: string := TopicExchange, queueSize: int := 10, messageTtl: int := 60000,
                overflow: string := "drop-head", debug: bool := false)
      ensures this.topic == topic && this.exchange == exchange && this.onMessage == onMessage
      ensures this.ser == ser && this.ct == ct && this.codec == codec
      ensures this.queueSize == queueSize && this.messageTtl == messageTtl && this.overflow == overflow
      ensures queueName.None? && Rate() == Initial
      ensures fresh(transport) && transport.link == NoConnection && transport.log == []
      ensures transport.params == (if connParams.Some? then connParams.value else ConnectionParameters())
    {
      this.topic := topic;
      this.exchange := exchange;
      this.queueSize := queueSize;
      this.messageTtl := messageTtl;
      this.overflow := overflow;
      this.ser := ser;
      this.ct := ct;
      this.codec := codec;
      this.onMessage := onMessage;
      transport := new AMQPTransport(connParams, debug);
      queueName := None;
      lastMsgTs := None;
      msgFreqFifo := [];
      hz := 0.0;
    }

    /** The rest of the source's constructor: connect, check that the exchange
        is there, declare an exclusive queue with the subscriber's size, TTL
        and overflow and a five-minute expiry, and bind it to the topic.
        `exchangeCheck` is the broker's answer to the passive declaration and
        `assignedQueue` the name the broker gives the queue. */
    method Start(attempts: seq<ConnectOutcome>, exchangeCheck: DeclareOutcome, assignedQueue: string)
      returns (r: Result<(), Error>)
      modifies this, transport
      ensures Rate() == old(Rate())
      ensures ConnectVerdict(attempts).Err? ==>
        r == Err(ConnectVerdict(attempts).error) && queueName == old(queueName)
        && transport.View() == old(transport.View())
      ensures ConnectVerdict(attempts).Ok? && !exchangeCheck.DeclareOk? ==>
        && queueName == old(queueName)
        && transport.log == old(transport.log) + [OpenChannel, DeclareExchangePassive(exchange)]
        && (exchangeCheck.ClosedByBroker? ==>
              r == Err(ChannelClosedByBroker(exchangeCheck.replyCode)) && transport.link == Closed)
        && (exchangeCheck.DeclareRaised? ==> r == Err(BrokerError(exchangeCheck.msg)) && transport.link == Open)
      ensures ConnectVerdict(attempts).Ok? && exchangeCheck.DeclareOk? ==>
        && r.Ok? && queueName == Some(assignedQueue) && transport.link == Open
        && transport.log == old(transport.log) +
             [OpenChannel, DeclareExchangePassive(exchange),
              DeclareQueue("", true, false, true,
                           QueueArguments(queueSize, messageTtl, overflow, SubscriberQueueExpires)),
              BindQueue(exchange, assignedQueue, topic)]
    {
      var c := transport.Connect(attempts);
      if c.Err? {
        return Err(c.error);
      }
      var exch := transport.ExchangeExists(exchange, exchangeCheck);
      if exch.Err? {
        return Err(exch.error);
      }
      var q := transport.CreateQueue(assignedQueue, queueSize := queueSize, messageTtl := messageTtl,
                                     overflowBehaviour := overflow, expires := SubscriberQueueExpires);
      queueName := Some(q.value);
      r := transport.Perform(BindQueue(exchange, q.value, topic));
    }

    /** `run_forever` up to the blocking loop: consume from the subscriber's
        queue with automatic acks. */
    method RunForever() returns (r: Result<(), Error>)
      modifies transport
      ensures transport.link == old(transport.link)
      ensures old(transport.link) == NoConnection ==>
        r == Err(NoChannelError(NoConnection)) && transport.log == old(transport.log)
      ensures old(transport.link) != NoConnection && queueName.None? ==>
        r == Err(QueueNameError) && transport.log == old(transport.log)
      ensures queueName.Some? && old(transport.link) == Closed ==>
        r == Err(NoChannelError(Closed)) && transport.log == old(transport.log)
      ensures queueName.Some? && old(transport.link) == Open ==>
        r.Ok? && transport.log == old(transport.log) + [Consume(queueName.value, true)]
    {
      if transport.link == NoConnection {
        return Err(NoChannelError(NoConnection));
      }
      if queueName.None? {
        return Err(QueueNameError);
      }
      r := transport.Perform(Consume(queueName.value, true));
    }

    /** `_calc_msg_frequency` with the clock reading `ts`. */
    method CalcMsgFrequency(ts: real)
      modifies this
      ensures Rate() == Step(old(Rate()), ts)
      ensures Valid(old(Rate())) ==> Valid(Rate())
      ensures queueName == old(queueName)
    {
      if Valid(Rate()) {
        StepKeepsValid(Rate(), ts);
      }
      if lastMsgTs.Some? {
        var diff := ts - lastMsgTs.value;
        if diff < BurstGap {
          lastMsgTs := Some(ts);
          return;
        }
        msgFreqFifo := AppendLeft(msgFreqFifo, 1.0 / diff);
        var hzList := NonZero(msgFreqFifo);
        hz := Sum(hzList) / |hzList| as real;
      }
      lastMsgTs := Some(ts);
    }

    /** `_on_msg_callback_wrapper` for one message arriving at clock reading
        `ts`: the estimate moves whether or not a callback is registered, and
        then the callback, when there is one, receives the decoded message and
        its metadata. Its exception is not caught: it escapes the wrapper and
        the consumer loop, which ends `run_forever`. */
    method OnMsgCallbackWrapper(d: Delivery, ts: real) returns (r: Result<(), Error>)
      modifies this
      ensures Rate() == Step(old(Rate()), ts)
      ensures Valid(old(Rate())) ==> Valid(Rate())
      ensures queueName == old(queueName)
      ensures onMessage.None? ==> r.Ok?
      ensures onMessage.Some? ==>
        var out := onMessage.value(MessageOf(ser, ct, codec, d), MessageMetaOf(d));
        (out.Ok? ==> r.Ok?) && (out.Err? ==> r == Err(HandlerError(out.error)))
    {
      var meta := MessageMetaOf(d);
      var msg := MessageOf(ser, ct, codec, d);
      CalcMsgFrequency(ts);
      if onMessage.None? {
        return Ok(());
      }
      var out := onMessage.value(msg, meta);
      if out.Err? {
        return Err(HandlerError(out.error));
      }
      r := Ok(());
    }

    /** `close`: without a connection reading the channel's state raises; on a
        closed channel it answers False; otherwise it deletes the subscriber's
        queue and answers None. Before the queue was declared its name is None,
        which the driver refuses as a queue name. */
    method Close() returns (r: Result<Option<bool>, Error>)
      modifies transport
      ensures transport.link == old(transport.link)
      ensures old(transport.link) == NoConnection ==>
        r == Err(NoChannelError(NoConnection)) && transport.log == old(transport.log)
      ensures old(transport.link) == Closed ==> r == Ok(Some(false)) && transport.log == old(transport.log)
      ensures old(transport.link) == Open && queueName.None? ==>
        r == Err(QueueNameError) && transport.log == old(transport.log)
      ensures old(transport.link) == Open && queueName.Some? ==>
        r == Ok(None) && transport.log == old(transport.log) + [DeleteQueue(queueName.value)]
    {
      if transport.link == NoConnection {
        return Err(NoChannelError(NoConnection));
      }
      if transport.link == Closed {
        return Ok(Some(false));
      }
      if queueName.None? {
        return Err(QueueNameError);
      }
      var deleted := transport.Perform(DeleteQueue(queueName.value));
      r := Ok(None);
    }
  }

  /** One message after another: the subscriber's estimate after a run of
      deliveries is the estimator run over their arrival times, and stays valid. */
  lemma {:induction false} RateAfterMessages(ts: seq<real>)
    ensures Valid(Run(Initial, ts))
  {
    if ts != [] {
      RateAfterMessages(ts[..|ts| - 1]);
      StepKeepsValid(Run(Initial, ts[..|ts| - 1]), ts[|ts| - 1]);
    }
  }
}
