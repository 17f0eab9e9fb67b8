/** `AMQPTransport`: the object that owns one broker connection and its channel.
    The channel is modelled by its state and by the log of operations performed
    on it, so that order can be stated; what the broker does in reply to each
    operation is an input. */
module Transport {
  import opened Wrappers
  import opened Values
  import opened Envelope
  import opened Negotiation

  /** `ConnectionParameters`, with the constructor's defaults. Credentials are
      not part of this model. */
  datatype ConnectionParameters = ConnectionParameters(
    host: string := "127.0.0.1",
    port: Scalar := SStr("5672"),
    secure: bool := false,
    vhost: string := "/",
    reconnectAttempts: int := 5,
    retryDelay: real := 2.0,
    timeout: real := 120.0,
    blockedConnectionTimeout: Option<real> := None,
    heartbeatTimeout: Option<int> := Some(60),
    channelMax: int := 128)

  /** The arguments handed on to the driver's own parameters object. */
  datatype DriverParameters = DriverParameters(
    host: string, port: string, connectionAttempts: int, retryDelay: real,
    blockedConnectionTimeout: Option<real>, socketTimeout: real, virtualHost: string,
    heartbeat: Option<int>, channelMax: int)

  /** The driver receives the port as a string (`str(port)`), which reads back as
      the given port when that was an int; every other value is handed on under
      the driver's name for it. */
  function ToDriver(p: ConnectionParameters): (d: DriverParameters)
    ensures p.port.SStr? ==> d.port == p.port.s
    ensures p.port.SInt? ==> ParseInt(d.port) == Some(p.port.i)
    ensures d.host == p.host && d.virtualHost == p.vhost
    ensures d.connectionAttempts == p.reconnectAttempts && d.retryDelay == p.retryDelay
    ensures d.socketTimeout == p.timeout && d.blockedConnectionTimeout == p.blockedConnectionTimeout
    ensures d.heartbeat == p.heartbeatTimeout && d.channelMax == p.channelMax
  {
    DriverParameters(p.host, PyStr(p.port), p.reconnectAttempts, p.retryDelay,
                     p.blockedConnectionTimeout, p.timeout, p.vhost, p.heartbeatTimeout, p.channelMax)
  }

  /** The default parameters as the driver sees them. */
  lemma DefaultDriverParameters()
    ensures ToDriver(ConnectionParameters()) ==
      DriverParameters("127.0.0.1", "5672", 5, 2.0, None, 120.0, "/", Some(60), 128)
  {
  }

  /** A value in a queue's `x-*` argument map. */
  datatype QueueArg = ArgInt(n: int) | ArgStr(s: string)

  /** The argument map `create_queue` passes with its queue declaration. */
  function QueueArguments(queueSize: int := 10, messageTtl: int := 60000,
                          overflowBehaviour: string := "drop-head",
                          expires: int := 600000): map<string, QueueArg>
  {
    map["x-max-length" := ArgInt(queueSize), "x-overflow" := ArgStr(overflowBehaviour),
        "x-message-ttl" := ArgInt(messageTtl), "x-expires" := ArgInt(expires)]
  }

  /** With no arguments the queue holds 10 messages, drops the oldest on
      overflow, keeps a message 60 s and expires after 10 idle minutes. */
  lemma DefaultQueueArguments()
    ensures QueueArguments() == map["x-max-length" := ArgInt(10), "x-overflow" := ArgStr("drop-head"),
                                    "x-message-ttl" := ArgInt(60000), "x-expires" := ArgInt(600000)]
  {
  }

  /** One operation performed on the channel, in the order performed. */
  datatype Action =
    | OpenChannel
    | Publish(exchange: string, routingKey: Option<string>, props: BasicProperties, body: Value)
    | Ack(deliveryTag: nat)
    | StopConsuming
    | CloseChannel
    | DeclareExchange(exchange: string, exchangeType: string, durable: bool)
    | DeclareExchangePassive(exchange: string)
    | DeclareQueue(queue: string, exclusive: bool, durable: bool, autoDelete: bool,
                   arguments: map<string, QueueArg>)
    | DeclarePassive(queue: string)
    | DeleteQueue(queue: string)
    | BindQueue(exchange: string, queue: string, bindKey: string)
    | SetQos(prefetchCount: nat, globalQos: bool)
    | Consume(queue: string, autoAck: bool)

  /** `_connection` / `_channel`: none yet, a connection with an open channel, or
      a connection whose channel is closed. */
  datatype LinkState = NoConnection | Open | Closed

  datatype LogLevel = Debug | Info

  /** The part of the transport that shutdown reads and writes. */
  datatype TransportView = TransportView(link: LinkState, log: seq<Action>)

  /** `_graceful_shutdown`: nothing happens without a connection or on a closed
      channel; otherwise consuming stops and then the channel closes. */
  function Shutdown(v: TransportView): TransportView
  {
    if v.link == Open then TransportView(Closed, v.log + [StopConsuming, CloseChannel]) else v
  }

  /** After a shutdown the channel is never open, so a second shutdown is a
      no-op; only an open channel is touched, and it gets exactly one
      stop-consuming followed by one close. */
  lemma ShutdownIdempotent(v: TransportView)
    ensures Shutdown(Shutdown(v)) == Shutdown(v)
    ensures Shutdown(v).link != Open
    ensures Shutdown(v) != v <==> v.link == Open
    ensures |Shutdown(v).log| <= |v.log| + 2 && Shutdown(v).log[..|v.log|] == v.log
  {
  }

  /** What one attempt to open a connection and its channel ends in. */
  datatype ConnectOutcome = Established | ConnectionClosed | ConnectionFailed | Raised(msg: string)

  /** The two driver exceptions after which `connect` tries again. */
  predicate Retried(o: ConnectOutcome) { o.ConnectionClosed? || o.ConnectionFailed? }

  /** The outcome of `connect` given the outcomes of its successive attempts:
      the number of failed attempts before the one that connected, the exception
      that is not retried, or exhaustion of the outcomes given. */
  function ConnectVerdict(attempts: seq<ConnectOutcome>): (r: Result<nat, Error>)
    ensures r.Err? ==> r.error == RetriesExhausted || r.error.BrokerError?
  {
    if attempts == [] then Err(RetriesExhausted)
    else match attempts[0]
      case Established => Ok(0)
      case Raised(m) => Err(BrokerError(m))
      case _ =>
        (match ConnectVerdict(attempts[1..])
         case Ok(n) => Ok(n + 1)
         case Err(e) => Err(e))
  }

  /** `connect` succeeds on the first attempt that connects provided every
      attempt before it failed with a retried exception; it gives up only when
      every attempt failed that way. */
  lemma {:induction false} ConnectVerdictMeaning(attempts: seq<ConnectOutcome>)
    ensures var r := ConnectVerdict(attempts);
      && (r.Ok? ==> r.value < |attempts| && attempts[r.value] == Established &&
                    forall j :: 0 <= j < r.value ==> Retried(attempts[j]))
      && (r == Err(RetriesExhausted) <==> forall j :: 0 <= j < |attempts| ==> Retried(attempts[j]))
      && (r.Err? && r.error.BrokerError? ==>
            exists k :: 0 <= k < |attempts| && attempts[k] == Raised(r.error.msg))
  {
    if attempts != [] {
      ConnectVerdictMeaning(attempts[1..]);
      var r := ConnectVerdict(attempts);
      if r.Err? && r.error.BrokerError? && !attempts[0].Raised? {
        var k :| 0 <= k < |attempts[1..]| && attempts[1..][k] == Raised(r.error.msg);
        assert attempts[k + 1] == Raised(r.error.msg);
      }
      if !Retried(attempts[0]) {
        assert !Retried(attempts[0]);
      } else if forall j :: 0 <= j < |attempts[1..]| ==> Retried(attempts[1..][j]) {
        forall j | 0 <= j < |attempts| ensures Retried(attempts[j]) {
          if j > 0 { assert attempts[j] == attempts[1..][j - 1]; }
        }
      } else {
        var j :| 0 <= j < |attempts[1..]| && !Retried(attempts[1..][j]);
        assert !Retried(attempts[j + 1]);
      }
    }
  }

  /** `queue_exists` as written, once the passive declare ended without an
      exception (None), or with the broker closing the channel (after the
      reconnect): False for reply code 404, True for any other code. */
  function QueueExistsReply(outcome: DeclareOutcome): Option<bool>
    requires !outcome.DeclareRaised?
  {
    match outcome
    case DeclareOk => None
    case ClosedByBroker(code) => Some(code != 404)
  }

  /** What the broker does with a passive queue declaration. */
  datatype DeclareOutcome = DeclareOk | ClosedByBroker(replyCode: int) | DeclareRaised(msg: string)

  /** The driver's TypeError for a message body that is neither str nor bytes
      (None or a dict); its text is not part of this model. */
  const UnsendableBody: Error := TypeError("body must be str or bytes")

  /** The driver's refusal of a publish whose routing key is not a string. */
  const UnroutablePublish: Error := AssertionError("routing key must be str")

  /** The exception a channel operation raises when there is no open channel. */
  function NoChannelError(link: LinkState): Error
  {
    if link == NoConnection then AttributeError("'NoneType' object has no attribute") else ChannelWrongState
  }

  class AMQPTransport {
    const params: ConnectionParameters
    var link: LinkState
    var log: seq<Action>
    var debug: bool
    /** The logger level the debug setter chose; None while the logger keeps its own. */
    var level: Option<LogLevel>

    function View(): TransportView
      reads this
    {
      TransportView(link, log)
    }

    constructor(connectionParams: Option<ConnectionParameters>, debug: bool := false)
      ensures params == (if connectionParams.Some? then connectionParams.value else ConnectionParameters())
      ensures link == NoConnection && log == [] && this.debug == debug && level == None
    {
      params := if connectionParams.Some? then connectionParams.value else ConnectionParameters();
      link := NoConnection;
      log := [];
      this.debug := debug;
      level := None;
    }

    /** The `debug` setter: a non-bool is refused with TypeError and changes
        nothing; a bool is stored and sets the logger level. */
    method SetDebug(val: Value) returns (r: Result<(), Error>)
      modifies this
      ensures View() == old(View())
      ensures val.Bool? ==> r.Ok? && debug == val.b && level == Some(if val.b then Debug else Info)
      ensures !val.Bool? ==>
        r == Err(TypeError("Value should be boolean")) && debug == old(debug) && level == old(level)
    {
      if !val.Bool? {
        return Err(TypeError("Value should be boolean"));
      }
      debug := val.b;
      level := if debug then Some(Debug) else Some(Info);
      r := Ok(());
    }

    /** `connect`. The source retries without bound on the two retried driver
        exceptions; here the attempts' outcomes are given and running out of
        them ends the loop with RetriesExhausted. Opening the connection and
        opening its channel are one step here: an attempt establishes both or
        neither. */
    method Connect(attempts: seq<ConnectOutcome>) returns (r: Result<nat, Error>)
      modifies this
      ensures r == ConnectVerdict(attempts)
      ensures r.Ok? ==> link == Open && log == old(log) + [OpenChannel]
      ensures r.Err? ==> View() == old(View())
      ensures debug == old(debug) && level == old(level)
    {
      var i := 0;
      while i < |attempts| && Retried(attempts[i])
        invariant 0 <= i <= |attempts|
        invariant forall j :: 0 <= j < i ==> Retried(attempts[j])
        invariant ConnectVerdict(attempts) ==
          match ConnectVerdict(attempts[i..]) case Ok(n) => Ok(n + i) case Err(e) => Err(e)
      {
        assert attempts[i..][1..] == attempts[i + 1..];
        i := i + 1;
      }
      if i == |attempts| {
        return Err(RetriesExhausted);
      }
      match attempts[i]
      case Established =>
        link := Open;
        log := log + [OpenChannel];
        r := Ok(i);
      case Raised(m) =>
        r := Err(BrokerError(m));
    }

    /** One driver operation on the channel (publish, ack, declare, bind, ...):
        recorded when the channel is open, refused otherwise. */
    method Perform(a: Action) returns (r: Result<(), Error>)
      modifies this
      ensures link == old(link) && debug == old(debug) && level == old(level)
      ensures old(link) == Open ==> r.Ok? && log == old(log) + [a]
      ensures old(link) != Open ==> r == Err(NoChannelError(old(link))) && log == old(log)
    {
      if link != Open {
        return Err(NoChannelError(link));
      }
      log := log + [a];
      r := Ok(());
    }

    method GracefulShutdown()
      modifies this
      ensures View() == Shutdown(old(View()))
      ensures debug == old(debug) && level == old(level)
    {
      if link == NoConnection {
        return;
      }
      if link == Closed {
        return;
      }
      log := log + [StopConsuming];
      log := log + [CloseChannel];
      link := Closed;
    }

    /** `close`, `disconnect` and `__del__` each only delegate to the graceful shutdown. */
    method Close()
      modifies this
      ensures View() == Shutdown(old(View()))
      ensures debug == old(debug) && level == old(level)
    {
      GracefulShutdown();
    }

    method Disconnect()
      modifies this
      ensures View() == Shutdown(old(View()))
      ensures debug == old(debug) && level == old(level)
    {
      GracefulShutdown();
    }

    method Finalize()
      modifies this
      ensures View() == Shutdown(old(View()))
      ensures debug == old(debug) && level == old(level)
    {
      GracefulShutdown();
    }

    /** `basic_publish` on the channel. The driver sends a str body UTF-8
        encoded and a bytes body as it is; it refuses any other body (None, a
        dict) with a TypeError, and a routing key that is not a string (None)
        with an AssertionError, before anything is sent. Without an open
        channel the call fails before either is looked at; when both are
        wrong, the body's refusal is the one reported. */
    method BasicPublish(exchange: string, routingKey: Option<string>, props: BasicProperties, body: Value,
                        codec: TextCodec) returns (r: Result<(), Error>)
      modifies this
      ensures link == old(link) && debug == old(debug) && level == old(level)
      ensures old(link) != Open ==> r == Err(NoChannelError(old(link))) && log == old(log)
      ensures old(link) == Open && BodyBytes(codec, body).None? ==> r == Err(UnsendableBody) && log == old(log)
      ensures old(link) == Open && BodyBytes(codec, body).Some? && routingKey.None? ==>
        r == Err(UnroutablePublish) && log == old(log)
      ensures old(link) == Open && BodyBytes(codec, body).Some? && routingKey.Some? ==>
        r.Ok? && log == old(log) + [Publish(exchange, routingKey, props, body)]
    {
      if link != Open {
        return Err(NoChannelError(link));
      }
      if BodyBytes(codec, body).None? {
        return Err(UnsendableBody);
      }
      if routingKey.None? {
        return Err(UnroutablePublish);
      }
      r := Perform(Publish(exchange, routingKey, props, body));
    }

    /** `create_exchange`: a durable exchange of the given type. */
    method CreateExchange(exchangeName: string, exchangeType: string) returns (r: Result<(), Error>)
      modifies this
      ensures link == old(link) && debug == old(debug) && level == old(level)
      ensures old(link) == Open ==> r.Ok? && log == old(log) + [DeclareExchange(exchangeName, exchangeType, true)]
      ensures old(link) != Open ==> r == Err(NoChannelError(old(link))) && log == old(log)
    {
      r := Perform(DeclareExchange(exchangeName, exchangeType, true));
    }

    /** `exchange_exists`: a passive declaration that answers DeclareOk when the
        exchange is there; the broker's refusal (404 for a missing exchange)
        closes the channel and propagates. */
    method ExchangeExists(exchangeName: string, outcome: DeclareOutcome) returns (r: Result<(), Error>)
      modifies this
      ensures debug == old(debug) && level == old(level)
      ensures old(link) != Open ==> r == Err(NoChannelError(old(link))) && View() == old(View())
      ensures old(link) == Open ==> log == old(log) + [DeclareExchangePassive(exchangeName)]
      ensures old(link) == Open ==> (r.Ok? <==> outcome.DeclareOk?)
      ensures old(link) == Open && outcome.DeclareOk? ==> link == Open
      ensures old(link) == Open && outcome.ClosedByBroker? ==>
        r == Err(ChannelClosedByBroker(outcome.replyCode)) && link == Closed
      ensures old(link) == Open && outcome.DeclareRaised? ==> r == Err(BrokerError(outcome.msg)) && link == Open
    {
      r := Perform(DeclareExchangePassive(exchangeName));
      if r.Err? {
        return;
      }
      match outcome
      case DeclareOk =>
      case ClosedByBroker(code) =>
        link := Closed;
        r := Err(ChannelClosedByBroker(code));
      case DeclareRaised(m) =>
        r := Err(BrokerError(m));
    }

    /** `create_queue`: declares a non-durable, auto-deleted queue with the
        `x-*` arguments and returns the name the broker reports (`reply`). */
    method CreateQueue(reply: string, queueName: string := "", exclusive: bool := true,
                       queueSize: int := 10, messageTtl: int := 60000,
                       overflowBehaviour: string := "drop-head", expires: int := 600000)
      returns (r: Result<string, Error>)
      modifies this
      ensures link == old(link) && debug == old(debug) && level == old(level)
      ensures old(link) == Open ==>
        r == Ok(reply) &&
        log == old(log) + [DeclareQueue(queueName, exclusive, false, true,
                                        QueueArguments(queueSize, messageTtl, overflowBehaviour, expires))]
      ensures old(link) != Open ==> r == Err(NoChannelError(old(link))) && log == old(log)
    {
      var args := QueueArguments(queueSize, messageTtl, overflowBehaviour, expires);
      var done := Perform(DeclareQueue(queueName, exclusive, false, true, args));
      if done.Err? {
        return Err(done.error);
      }
      r := Ok(reply);
    }

    /** `queue_exists`: a passive declaration whose outcome is `outcome`. When
        the broker closes the channel the transport reconnects (with the
        attempts `reconnect`) before answering. */
    method QueueExists(queueName: string, outcome: DeclareOutcome, reconnect: seq<ConnectOutcome>)
      returns (r: Result<Option<bool>, Error>)
      modifies this
      ensures debug == old(debug) && level == old(level)
      ensures old(link) != Open ==> r == Err(NoChannelError(old(link))) && View() == old(View())
      ensures old(link) == Open && outcome.DeclareOk? ==>
        r == Ok(None) && link == Open && log == old(log) + [DeclarePassive(queueName)]
      ensures old(link) == Open && outcome.DeclareRaised? ==>
        r == Err(BrokerError(outcome.msg)) && link == Open && log == old(log) + [DeclarePassive(queueName)]
      ensures old(link) == Open && outcome.ClosedByBroker? ==>
        var c := ConnectVerdict(reconnect);
        && (c.Ok? ==> r == Ok(QueueExistsReply(outcome)) && link == Open &&
                      log == old(log) + [DeclarePassive(queueName), OpenChannel])
        && (c.Err? ==> r == Err(c.error) && link == Closed && log == old(log) + [DeclarePassive(queueName)])
    {
      var done := Perform(DeclarePassive(queueName));
      if done.Err? {
        return Err(done.error);
      }
      match outcome
      case DeclareOk =>
        r := Ok(None);
      case DeclareRaised(m) =>
        r := Err(BrokerError(m));
      case ClosedByBroker(code) =>
        link := Closed;
        var c := Connect(reconnect);
        if c.Err? {
          return Err(c.error);
        }
        r := Ok(QueueExistsReply(outcome));
    }
  }
}
