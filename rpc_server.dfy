/** `RPCServer`: decodes each request, hands it to the `on_request` handler (or
    answers 501 when there is none), encodes the reply, publishes it to the
    request's `reply_to` with the request's correlation id, then acks. */
module RpcServer {
  import opened Wrappers
  import opened Values
  import opened Envelope
  import opened Negotiation
  import opened Transport

  /** The `properties` part of the metadata handed to the handler, with the
      delivery tag of the `method` frame. */
  datatype RequestMeta = RequestMeta(
    deliveryTag: nat,
    contentType: Option<string>,
    contentEncoding: Option<string>,
    timestampBroker: Option<Value>,
    timestampProducer: Option<int>,
    deliveryMode: Option<int>,
    correlationId: Option<string>)

  /** The user callback; an Err is an exception it raises. */
  type Handler = (Value, RequestMeta) -> Result<Value, string>

  datatype ServerConfig = ServerConfig(
    rpcName: string,
    exchange: string,
    ser: Serializer,
    ct: ContentTypes,
    codec: TextCodec,
    onRequest: Option<Handler>)

  /** The try block that reads the request's properties: correlation id, type
      and encoding are always read; the header lookup raises when the header is
      missing, and then delivery mode and producer timestamp stay None. */
  function RequestMetaOf(d: Delivery): RequestMeta
  {
    var p := d.props;
    if HasBrokerTimestamp(p) then
      RequestMeta(d.deliveryTag, p.contentType, p.contentEncoding, Some(p.headers.value["timestamp_in_ms"]),
                  p.timestamp, p.deliveryMode, p.correlationId)
    else
      RequestMeta(d.deliveryTag, p.contentType, p.contentEncoding, None, None, None, p.correlationId)
  }

  /** The request as the handler receives it: decoded, with JSON as the fallback
      for an unknown tag, and the raw body when decoding raises. */
  function HandlerInput(cfg: ServerConfig, d: Delivery): Value
  {
    DecodeOrRaw(cfg.ser, cfg.ct, cfg.codec, DecodeAsJson, d.body, d.props.contentType, d.props.contentEncoding)
  }

  /** The reply when no handler is registered. */
  const NotImplemented: Value := Dict(map["error" := Str("Not Implemented"), "status" := Int(501)])

  /** The response: the handler's result, or the 501 record without a handler.
      An Err is the handler's exception, which the source does not catch. */
  function Response(cfg: ServerConfig, d: Delivery): Result<Value, string>
  {
    match cfg.onRequest
    case None => Ok(NotImplemented)
    case Some(h) => h(HandlerInput(cfg, d), RequestMetaOf(d))
  }

  /** The channel operations one request causes on an open channel, `now`
      being the clock reading taken by the reply's properties. An Err is the
      handler's exception, or the driver's refusal of a body that is neither
      str nor bytes, or of a request without `reply_to`; either way nothing
      is published and nothing acked. */
  function ReplyActions(cfg: ServerConfig, d: Delivery, now: real): Result<seq<Action>, Error>
  {
    match Response(cfg, d)
    case Err(e) => Err(HandlerError(e))
    case Ok(resp) =>
      var enc := EncodeReply(cfg.ser, cfg.codec, resp);
      var props := MessageProperties(now, contentType := enc.contentType,
                                     contentEncoding := enc.contentEncoding,
                                     correlationId := d.props.correlationId);
      if BodyBytes(cfg.codec, enc.payload).None? then Err(UnsendableBody)
      else if d.props.replyTo.None? then Err(UnroutablePublish)
      else Ok([Publish(cfg.exchange, d.props.replyTo, props, enc.payload), Ack(d.deliveryTag)])
  }

  /** A handled request is answered exactly when the response is a dict, a str
      or bytes that encodes and the request names a `reply_to`; the answer is
      one publish followed by one ack: the reply goes to that address on the
      server's exchange and carries the request's correlation id, and the ack
      names the request's delivery tag. Any other response (None, an int, a
      list) is refused as a body, a request without `reply_to` as a routing
      key, and either way the request stays unanswered and unacked. */
  lemma ReplyCorrelatedThenAcked(cfg: ServerConfig, d: Delivery, now: real)
    requires Response(cfg, d).Ok?
    ensures var r := ReplyActions(cfg, d, now);
      && var sendable := IsEncodable(Response(cfg, d).value) && Encode(cfg.ser, cfg.codec, Response(cfg, d).value).Ok?;
      && (r.Ok? <==> sendable && d.props.replyTo.Some?)
      && (!sendable ==> r == Err(UnsendableBody))
      && (sendable && d.props.replyTo.None? ==> r == Err(UnroutablePublish))
      && (r.Ok? ==>
            && |r.value| == 2
            && r.value[0].Publish? && r.value[0].routingKey == d.props.replyTo
            && r.value[0].exchange == cfg.exchange
            && r.value[0].props.correlationId == d.props.correlationId
            && r.value[1] == Ack(d.deliveryTag))
  {
    EncodedBodySendable(cfg.ser, cfg.codec, Response(cfg, d).value);
  }

  /** When the handler raises, nothing is published and the request is not acked. */
  lemma HandlerErrorLeavesRequestUnacked(cfg: ServerConfig, d: Delivery, now: real)
    requires Response(cfg, d).Err?
    ensures ReplyActions(cfg, d, now) == Err(HandlerError(Response(cfg, d).error))
  {
  }

  /** When decoding the request raises, the handler receives the raw body;
      otherwise it receives the decoded value. */
  lemma RawBodyOnDecodeFailure(cfg: ServerConfig, d: Delivery)
    ensures var dec := DeserializeData(cfg.ser, cfg.ct, cfg.codec, DecodeAsJson, d.body,
                                       d.props.contentType, d.props.contentEncoding);
      && (dec.Err? ==> HandlerInput(cfg, d) == Bytes(d.body))
      && (dec.Ok? ==> HandlerInput(cfg, d) == dec.value)
  {
  }

  /** Without a handler the server answers the 501 record whenever the request
      names a `reply_to`, and a client whose decoder agrees with the server's
      encoder reads exactly that record back. */
  lemma NoHandlerRepliesNotImplemented(cfg: ServerConfig, d: Delivery, now: real, fallback: Fallback)
    requires cfg.onRequest.None?
    requires TagsAgree(cfg.ser, cfg.ct) && SerializerInverts(cfg.ser, cfg.codec) && Utf8Inverts(cfg.codec)
    requires cfg.ser.serialize(NotImplemented).Ok?
    ensures var r := ReplyActions(cfg, d, now);
      && (r.Ok? <==> d.props.replyTo.Some?)
      && (r.Err? ==> r == Err(UnroutablePublish))
      && (r.Ok? ==>
            && r.value[0].Publish?
            && var p := r.value[0];
               && BodyBytes(cfg.codec, p.body).Some?
               && DeserializeData(cfg.ser, cfg.ct, cfg.codec, fallback, BodyBytes(cfg.codec, p.body).value,
                                  p.props.contentType, p.props.contentEncoding) == Ok(NotImplemented))
  {
    RoundTrip(cfg.ser, cfg.ct, cfg.codec, fallback, NotImplemented);
  }

  /** When the server's own encoding raises, the reply it builds has no type
      and no encoding and carries the internal-error record; that record is a
      dict, which the driver refuses, so the client never receives it and the
      request stays unacked. */
  lemma InternalErrorRecordIsNotSent(cfg: ServerConfig, d: Delivery, now: real)
    requires Response(cfg, d).Ok? && Encode(cfg.ser, cfg.codec, Response(cfg, d).value).Err?
    ensures EncodeReply(cfg.ser, cfg.codec, Response(cfg, d).value) ==
      Encoded(None, None, InternalServerError(Encode(cfg.ser, cfg.codec, Response(cfg, d).value).error))
    ensures ReplyActions(cfg, d, now) == Err(UnsendableBody)
  {
  }

  /** Python truthiness of `queue_exists`'s result. */
  predicate Truthy(reply: Option<bool>) { reply.Some? && reply.value }

  /** Whether the passive declaration shows the queue to be there: it succeeded,
      or the broker refused it for a reason other than 404 (not found). */
  predicate QueuePresent(outcome: DeclareOutcome)
  {
    outcome.DeclareOk? || (outcome.ClosedByBroker? && outcome.replyCode != 404)
  }

  /** `self._rpc_exists() and raise_if_exists`, as written. */
  predicate RunGuardAsWritten(reply: Option<bool>, raiseIfExists: bool)
  {
    Truthy(reply) && raiseIfExists
  }

  /** As written, a queue that is already declared passes the passive
      declaration, `queue_exists` returns None, and the guard lets the server
      start on an address that is already served. */
  lemma ExistingQueueSlipsPastGuard()
    ensures QueuePresent(DeclareOk)
    ensures !RunGuardAsWritten(QueueExistsReply(DeclareOk), true)
  {
  }

  /** The guard as intended: refuse to start exactly when asked to and the
      queue is present; a None from `queue_exists` means "present". */
  predicate RunGuard(reply: Option<bool>, raiseIfExists: bool)
  {
    reply != Some(false) && raiseIfExists
  }

  lemma RunGuardMeansQueuePresent(outcome: DeclareOutcome, raiseIfExists: bool)
    requires !outcome.DeclareRaised?
    ensures RunGuard(QueueExistsReply(outcome), raiseIfExists) <==> raiseIfExists && QueuePresent(outcome)
  {
  }

  /** As written, the guard fires only when the broker refused the passive
      declaration with a code other than 404, never when the declaration
      succeeded. */
  lemma RunGuardAsWrittenMeaning(outcome: DeclareOutcome, raiseIfExists: bool)
    requires !outcome.DeclareRaised?
    ensures RunGuardAsWritten(QueueExistsReply(outcome), raiseIfExists) <==>
      raiseIfExists && outcome.ClosedByBroker? && outcome.replyCode != 404
  {
  }

  /** Which form of the `raise_if_exists` guard a server runs: the code as
      written, or the guard as intended. */
  datatype Guard = AsWritten | Corrected

  predicate Refuses(g: Guard, reply: Option<bool>, raiseIfExists: bool)
  {
    match g
    case AsWritten => RunGuardAsWritten(reply, raiseIfExists)
    case Corrected => RunGuard(reply, raiseIfExists)
  }

  /** When each guard refuses to start, in terms of the broker's answer. */
  predicate RefusesOn(g: Guard, outcome: DeclareOutcome, raiseIfExists: bool)
  {
    match g
    case AsWritten => raiseIfExists && outcome.ClosedByBroker? && outcome.replyCode != 404
    case Corrected => raiseIfExists && QueuePresent(outcome)
  }

  /** What `close` returns: None without a channel, False on a closed channel,
      True after stopping and deleting the queue, and AttributeError when the
      queue was never created. */
  function CloseOutcome(link: LinkState, rpcQueue: Option<string>): Result<Option<bool>, Error>
  {
    match link
    case NoConnection => Ok(None)
    case Closed => Ok(Some(false))
    case Open => if rpcQueue.None? then Err(AttributeError("'RPCServer' object has no attribute '_rpc_queue'"))
                 else Ok(Some(true))
  }

  /** The channel operations `close` performs. */
  function CloseActions(link: LinkState, rpcQueue: Option<string>): seq<Action>
  {
    if link != Open then []
    else if rpcQueue.None? then [StopConsuming]
    else [StopConsuming, DeleteQueue(rpcQueue.value)]
  }

  /** `close` reports True exactly when it deleted the queue, and it never
      closes the channel: on an open channel a second call repeats the first. */
  lemma CloseReportsDeletion(link: LinkState, rpcQueue: Option<string>)
    ensures CloseOutcome(link, rpcQueue) == Ok(Some(true)) <==>
      rpcQueue.Some? && DeleteQueue(rpcQueue.value) in CloseActions(link, rpcQueue)
    ensures CloseOutcome(link, rpcQueue).Ok? && CloseOutcome(link, rpcQueue).value.None? <==> link == NoConnection
  {
  }

  class RPCServer {
    const cfg: ServerConfig
    const transport: AMQPTransport
    var rpcQueue: Option<string>

    constructor(cfg: ServerConfig, connParams: Option<ConnectionParameters>, debug: bool := false)
      ensures this.cfg == cfg && fresh(transport) && rpcQueue.None?
      ensures transport.link == NoConnection && transport.log == [] && transport.debug == debug
      ensures transport.params == (if connParams.Some? then connParams.value else ConnectionParameters())
    {
      this.cfg := cfg;
      transport := new AMQPTransport(connParams, debug);
      rpcQueue := None;
    }

    /** `run_forever` up to the point where it starts consuming: connect, check
        whether the address is served under the guard `guard`, declare the RPC
        queue with the default arguments, set prefetch to one, consume. The
        guard consults `queue_exists` whether or not `raiseIfExists` is set;
        `AsWritten` is the source's run_forever, `Corrected` the intended one. */
    method RunForever(guard: Guard, raiseIfExists: bool, connectAttempts: seq<ConnectOutcome>,
                      exists_: DeclareOutcome, reconnect: seq<ConnectOutcome>, assignedQueue: string)
      returns (r: Result<(), Error>)
      modifies this, transport
      ensures r.Err? ==> rpcQueue == old(rpcQueue)
      ensures ConnectVerdict(connectAttempts).Err? ==>
        r == Err(ConnectVerdict(connectAttempts).error) && transport.View() == old(transport.View())
      ensures ConnectVerdict(connectAttempts).Ok? && exists_.DeclareRaised? ==>
        r == Err(BrokerError(exists_.msg)) && transport.link == Open &&
        transport.log == old(transport.log) + [OpenChannel, DeclarePassive(cfg.rpcName)]
      ensures ConnectVerdict(connectAttempts).Ok? && exists_.ClosedByBroker? && ConnectVerdict(reconnect).Err? ==>
        r == Err(ConnectVerdict(reconnect).error) && transport.link == Closed &&
        transport.log == old(transport.log) + [OpenChannel, DeclarePassive(cfg.rpcName)]
      ensures ConnectVerdict(connectAttempts).Ok? && !exists_.DeclareRaised? &&
              (exists_.ClosedByBroker? ==> ConnectVerdict(reconnect).Ok?) ==>
        var checked := old(transport.log) + [OpenChannel, DeclarePassive(cfg.rpcName)] +
                       (if exists_.ClosedByBroker? then [OpenChannel] else []);
        && transport.link == Open
        && (RefusesOn(guard, exists_, raiseIfExists) ==>
              r == Err(ValueError("RPC <" + cfg.rpcName + "> allready registered on broker.")) &&
              transport.log == checked)
        && (!RefusesOn(guard, exists_, raiseIfExists) ==>
              r.Ok? && rpcQueue == Some(assignedQueue) &&
              transport.log == checked + [DeclareQueue(cfg.rpcName, true, false, true, QueueArguments()),
                                          SetQos(1, false), Consume(assignedQueue, false)])
    {
      var c := transport.Connect(connectAttempts);
      if c.Err? {
        return Err(c.error);
      }
      var ex := transport.QueueExists(cfg.rpcName, exists_, reconnect);
      if ex.Err? {
        return Err(ex.error);
      }
      RunGuardMeansQueuePresent(exists_, raiseIfExists);
      RunGuardAsWrittenMeaning(exists_, raiseIfExists);
      if Refuses(guard, ex.value, raiseIfExists) {
        return Err(ValueError("RPC <" + cfg.rpcName + "> allready registered on broker."));
      }
      var q := transport.CreateQueue(assignedQueue, queueName := cfg.rpcName);
      var q' := q.value;
      rpcQueue := Some(q');
      var qos := transport.Perform(SetQos(1, false));
      var consume := transport.Perform(Consume(q', false));
      r := Ok(());
    }

    /** `_on_request_wrapper` for one delivery on the server's channel. The
        handler runs first; the publish then fails without an open channel,
        or refuses a body that is neither str nor bytes, before the ack. */
    method OnRequestWrapper(d: Delivery, now: real) returns (r: Result<(), Error>)
      modifies transport
      ensures transport.link == old(transport.link)
      ensures Response(cfg, d).Err? ==>
        r == Err(HandlerError(Response(cfg, d).error)) && transport.log == old(transport.log)
      ensures Response(cfg, d).Ok? && old(transport.link) != Open ==>
        r == Err(NoChannelError(old(transport.link))) && transport.log == old(transport.log)
      ensures Response(cfg, d).Ok? && old(transport.link) == Open && ReplyActions(cfg, d, now).Err? ==>
        r == Err(ReplyActions(cfg, d, now).error) && transport.log == old(transport.log)
      ensures Response(cfg, d).Ok? && old(transport.link) == Open && ReplyActions(cfg, d, now).Ok? ==>
        r.Ok? && transport.log == old(transport.log) + ReplyActions(cfg, d, now).value
    {
      var resp := Response(cfg, d);
      if resp.Err? {
        return Err(HandlerError(resp.error));
      }
      var enc := EncodeReply(cfg.ser, cfg.codec, resp.value);
      var props := MessageProperties(now, contentType := enc.contentType,
                                     contentEncoding := enc.contentEncoding,
                                     correlationId := d.props.correlationId);
      var published := transport.BasicPublish(cfg.exchange, d.props.replyTo, props, enc.payload, cfg.codec);
      if published.Err? {
        return Err(published.error);
      }
      var acked := transport.Perform(Ack(d.deliveryTag));
      r := Ok(());
    }

    /** `close` (also what `stop`, `__del__` and `__exit__` do). */
    method Close() returns (r: Result<Option<bool>, Error>)
      modifies transport
      ensures r == CloseOutcome(old(transport.link), rpcQueue)
      ensures transport.log == old(transport.log) + CloseActions(old(transport.link), rpcQueue)
      ensures transport.link == old(transport.link)
    {
      if transport.link == NoConnection {
        return Ok(None);
      }
      if transport.link == Closed {
        return Ok(Some(false));
      }
      var stopped := transport.Perform(StopConsuming);
      if rpcQueue.None? {
        return Err(AttributeError("'RPCServer' object has no attribute '_rpc_queue'"));
      }
      var deleted := transport.Perform(DeleteQueue(rpcQueue.value));
      r := Ok(Some(true));
    }
  }
}
