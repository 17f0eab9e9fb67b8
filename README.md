# commlib-py AMQP endpoints, modelled in Dafny

This project models the AMQP side of commlib-py, a library of communication endpoints on a message broker: RPC server, RPC client, publisher, subscriber, and the endpoint factory.

The model covers:

- **Message envelope.** The `MessageProperties` constructor defaults the timestamp and cuts it to an int. It stringifies message, user and app ids.
- **Content negotiation.**
  - On the way out, the payload's kind picks `content_type`, `content_encoding` and the body: a dict goes through the serializer, a str becomes `text/plain`, bytes become `application/octet-stream`.
  - On the way in, the `content_type` tag picks the decoder. An unknown tag is deserialized as JSON by the server and gives None in the client and the subscriber.
  - When decoding raises, the raw body is handed on.
- **The transport object.** It owns the connection and the channel:
  - the `debug` setter;
  - `connect` and its retries;
  - the graceful shutdown and its three entry points;
  - exchange and queue declarations with the `x-*` argument map;
  - `queue_exists`, with its reply codes and reconnect.
- **RPC server.** `run_forever` up to consuming, the request wrapper (decode → handler or 501 → encode → publish to `reply_to` with the correlation id → ack) and `close`.
- **RPC client.** Correlation filtering in `_on_response`. `call` clears the stored reply, draws a fresh id, publishes, dispatches the replies and answers with the stored reply or the timeout record.
- **Publisher and subscriber.** Setup, publish, the message callback and `close`. The subscriber's arrival-rate estimator keeps at most 100 samples newest first, applies a 10 ms burst guard and reports `hz` as the mean of the non-zero samples.
- **Endpoint factory.** The dispatch from (endpoint type, transport type) to a backend class.

### How the model represents things

- **Channel.** Each channel holds a log of the operations performed on it (`Transport.Action`), so the model can state their order.
- **Connection state.** The state is `NoConnection`, `Open` or `Closed`.
- **Inputs instead of I/O.** Whatever the broker, the clock or uuid generation would supply is an input to the operation that needs it:
  - the outcome of each connection attempt and of each passive declaration;
  - the queue name the broker assigns;
  - the replies that arrive while the client waits (in arrival order);
  - the clock reading in seconds, as a `real`;
  - the fresh correlation id.
- **Unseen code.** The serializer, the text codec and the `ContentType` constants are not part of this model. They are parameters: datatypes holding functions and strings.
- **Numbers.** Integers and reals are exact, so there is no floating point.
- **Duplicated source.** `MessageProperties`, `ConnectionParameters` and `AMQPTransport` appear twice, with identical text: in `commlib_py/transports/amqp.py` and in `commlib_py/transports/amqp_transport.py`. They are modelled once, citing the latter.

### Behaviour of the code that is easy to miss

- **Handler exceptions.** The request wrapper does not catch the handler's exception: nothing is published and the request is not acked (`RpcServer.HandlerErrorLeavesRequestUnacked`).
- **Bodies the driver refuses.** The encoders leave the body None for a payload that is not a dict, a str or bytes, and the RPC server's internal-error record is a dict. The driver refuses both before anything is sent, so such a reply is never published and its request is never acked (`RpcServer.InternalErrorRecordIsNotSent`, `Negotiation.EncodedBodySendable`). A request without `reply_to` fares the same: the driver refuses a None routing key (`RpcServer.ReplyCorrelatedThenAcked`).
- **Broker timestamp in the client.** The client guards the header lookup with `hasattr(self, 'headers')`, asked of the client object and not of the reply. The client class defines no such attribute, so the client reports a broker timestamp of 0 (`RpcClient.ClientIgnoresBrokerTimestamp`).
- **Default timestamp.** The default timestamp is `(now + 0.5) * 1000`, which puts it 500 ms ahead, not rounded (`Envelope.DefaultTimestampIsHalfSecondAhead`).
- **`RPCServer.close`.** It never closes the channel. On an open channel a second call stops consuming, deletes the queue and answers True again (`RpcServer.CloseReportsDeletion`).
- **Subscriber setup.** The exchange check calls the passive declaration, which either answers `Exchange.DeclareOk` or raises. So the subscriber's "create the exchange if missing" branch never runs, and a missing exchange makes setup fail (`PubSub.Subscriber.Start`).
- **Callbacks that raise.** The exceptions of `on_message` and `onresponse` are not caught by their wrappers (`PubSub.Subscriber.OnMsgCallbackWrapper`, `RpcClient.RPCClient.OnResponse`); a raising `onresponse` ends the dispatch of replies and escapes `call` (`RpcClient.RPCClient.Call`).

## Model

| member | source | states |
|---|---|---|
| Values.NatDecimalRoundTrip | commlib_py/transports/amqp_transport.py:59-61 | the decimal rendering of a natural number reads back as that number |
| Values.IntDecimalRoundTrip | commlib_py/transports/amqp_transport.py:59-61 | `str(i)` of any int, negative included, parses back to `i` |
| Values.PyStr | commlib_py/transports/amqp_transport.py:59-61 | `str(x)` leaves a string unchanged and renders an int so that it parses back to the same int |
| Envelope.Truncate | commlib_py/transports/amqp_transport.py:52 | `int(x)` truncates toward zero: the result lies within one unit of `x` on the side of zero |
| Envelope.MessageProperties | commlib_py/transports/amqp_transport.py:46-62 | the timestamp is always present and is the truncated given one or the default; type, encoding, correlation id and reply address pass through; each of the message, user and app ids is present exactly when given, a str id is kept as it is and an int id goes out as a string that parses back to it; no delivery mode or headers are set |
| Envelope.DefaultTimestampIsHalfSecondAhead | commlib_py/transports/amqp_transport.py:50-52 | with no timestamp given, the stamp is the clock in ms plus 500, cut to an int |
| Envelope.MessageIdZeroIsStringified | commlib_py/transports/amqp.py:784-793 | the `message_id=0` the client and publisher pass goes out as `"0"` |
| Negotiation.Encode | commlib_py/transports/amqp.py:765-781 | a dict takes the serializer's type and encoding and its UTF-8 serialized body; a str takes `text/plain`/`utf8` unchanged; bytes take `application/octet-stream`/`utf8` unchanged; any other kind leaves all three None; it fails exactly when the serializer raises on a dict |
| Negotiation.DecodeByContentType | commlib_py/transports/amqp.py:554-577 | json deserializes, text decodes with the given encoding (succeeding exactly when the codec does), raw bytes pass through, an unknown tag goes to the endpoint's fallback (JSON on the server, None on client and subscriber) |
| Negotiation.EncodingDefaultsToUtf8 | commlib_py/transports/amqp.py:746-763 | a missing `content_encoding` decodes exactly as `utf8` |
| Negotiation.EncodedBodySendable | commlib_py/transports/amqp.py:765-800 | an encoded payload has a body the driver can send exactly when the payload is a dict, a str or bytes; the server's internal-error record never has one |
| Negotiation.RoundTrip | commlib_py/transports/amqp.py:839-855 | decoding what the encoder produced gives back the dict, str or bytes payload on every endpoint, once tags and codecs agree |
| Transport.ToDriver | commlib_py/transports/amqp_transport.py:117-127 | the driver receives the port as a string that reads back as the given port; every other parameter is handed on under the driver's name |
| Transport.DefaultDriverParameters | commlib_py/transports/amqp_transport.py:98-127 | defaults: host 127.0.0.1, port "5672", 5 attempts, 2.0 s retry, 120 s socket timeout, vhost "/", heartbeat 60, 128 channels |
| Transport.DefaultQueueArguments | commlib_py/transports/amqp_transport.py:296-298 | defaults 10 messages, `drop-head`, 60000 ms TTL, 600000 ms expiry |
| Transport.ShutdownIdempotent | commlib_py/transports/amqp_transport.py:256-265 | a shutdown changes the transport exactly when the channel is open, only appending to the log (at most two operations); afterwards the channel is never open, so a second shutdown changes nothing |
| Transport.ConnectVerdict | commlib_py/transports/amqp_transport.py:228-245 | `connect` fails only by exhausting the attempts or by an exception it does not retry |
| Transport.ConnectVerdictMeaning | commlib_py/transports/amqp_transport.py:228-245 | success is the first establishing attempt after only retried failures; exhaustion happens exactly when every attempt was retried; a propagated error is one of the attempts' exceptions |
| Transport.AMQPTransport.constructor | commlib_py/transports/amqp_transport.py:181-199 | no connection yet, empty log, default parameters when none are given |
| Transport.AMQPTransport.SetDebug | commlib_py/transports/amqp_transport.py:218-226 | a non-bool raises TypeError and changes nothing; a bool is stored and sets the logger to DEBUG or INFO |
| Transport.AMQPTransport.Connect | commlib_py/transports/amqp_transport.py:228-245 | the loop's result is `ConnectVerdict`; on success the channel is open and one channel opening is logged; on failure nothing changes (connection and channel open as one step, see Left out) |
| Transport.AMQPTransport.Perform | commlib_py/transports/amqp_transport.py:345-346 | a channel operation is logged when the channel is open and refused, with nothing logged, otherwise |
| Transport.AMQPTransport.BasicPublish | commlib_py/transports/amqp.py:795-800 | a publish without an open channel fails first; on an open channel a body other than str or bytes raises TypeError, then a None routing key raises AssertionError, with nothing logged; otherwise the publish is logged |
| Transport.AMQPTransport.GracefulShutdown | commlib_py/transports/amqp_transport.py:256-265 | the new state is `Shutdown` of the old one: nothing changes without a connection or on a closed channel; an open channel gets stop-consuming then close and is left closed |
| Transport.AMQPTransport.Close | commlib_py/transports/amqp_transport.py:406-407 | only the graceful shutdown |
| Transport.AMQPTransport.Disconnect | commlib_py/transports/amqp_transport.py:409-410 | only the graceful shutdown |
| Transport.AMQPTransport.Finalize | commlib_py/transports/amqp_transport.py:412-413 | only the graceful shutdown |
| Transport.AMQPTransport.CreateExchange | commlib_py/transports/amqp_transport.py:275-294 | one durable exchange declaration of the given name and type |
| Transport.AMQPTransport.ExchangeExists | commlib_py/transports/amqp_transport.py:267-273 | one passive declaration; it succeeds exactly on DeclareOk, and a broker refusal closes the channel and propagates |
| Transport.AMQPTransport.CreateQueue | commlib_py/transports/amqp_transport.py:296-343 | one non-durable, auto-deleted declaration with the argument map; returns the broker-assigned name |
| Transport.AMQPTransport.QueueExists | commlib_py/transports/amqp_transport.py:351-370 | None after a successful passive declaration; after a broker close it reconnects and then answers False for code 404 and True otherwise, or propagates the reconnect's failure leaving the channel closed; any other driver exception propagates |
| RpcServer.RawBodyOnDecodeFailure | commlib_py/transports/amqp.py:485-491 | when decoding the request raises, the handler receives the raw body; otherwise the decoded value |
| RpcServer.NoHandlerRepliesNotImplemented | commlib_py/transports/amqp.py:494-512 | without a handler the reply is sent exactly when the request names a `reply_to`; it is the 501 "Not Implemented" record, and a client decodes exactly that record |
| RpcServer.ReplyCorrelatedThenAcked | commlib_py/transports/amqp.py:514-552 | a handled request is answered exactly when the response is a dict, str or bytes that encodes and the request names a `reply_to`: a publish to that address on the server's exchange with its correlation id, then an ack of its delivery tag; otherwise the driver refuses the body (TypeError) or the missing routing key (AssertionError) and nothing is acked |
| RpcServer.HandlerErrorLeavesRequestUnacked | commlib_py/transports/amqp.py:494-507 | when the handler raises, nothing is published and nothing acked |
| RpcServer.InternalErrorRecordIsNotSent | commlib_py/transports/amqp.py:532-552 | when the server's encoding raises, the reply is built with no type or encoding around the internal-error record, which the driver refuses: nothing is published and nothing acked |
| RpcServer.ExistingQueueSlipsPastGuard | commlib_py/transports/amqp.py:445-451 | as written, an existing queue passes the `raise_if_exists` guard |
| RpcServer.RunGuardMeansQueuePresent | commlib_py/transports/amqp.py:445-451 | the corrected guard refuses to start exactly when asked to and the queue is present |
| RpcServer.RunGuardAsWrittenMeaning | commlib_py/transports/amqp.py:445-451 | the guard as written refuses to start exactly when asked to and the broker refused the passive declaration with a code other than 404 |
| RpcServer.CloseReportsDeletion | commlib_py/transports/amqp.py:579-590 | `close` answers True exactly when it deleted the queue, and None exactly when there is no connection |
| RpcServer.RPCServer.constructor | commlib_py/transports/amqp.py:419-427 | a fresh transport with the given or default parameters and no RPC queue |
| RpcServer.RPCServer.RunForever | commlib_py/transports/amqp.py:445-460 | the whole new log in each case: connect failures change nothing; a failed existence check leaves the connect and the passive declaration; ValueError exactly when the chosen guard (as written or corrected) refuses; otherwise the RPC queue is declared with default arguments, prefetch set to 1 and the assigned queue consumed |
| RpcServer.RPCServer.OnRequestWrapper | commlib_py/transports/amqp.py:465-552 | a handler error logs nothing; then a missing or closed channel fails the publish; on an open channel the log receives exactly the reply actions (publish, then ack), or nothing when the driver refuses the body or the routing key |
| RpcServer.RPCServer.Close | commlib_py/transports/amqp.py:579-590 | answers `CloseOutcome` and performs exactly stop-consuming and the queue deletion on an open channel; never closes the channel |
| RpcClient.ClientIgnoresBrokerTimestamp | commlib_py/transports/amqp.py:676-683 | a reply's metadata does not depend on its headers, its broker timestamp is 0, and type, encoding, delivery mode and producer timestamp are the reply's own |
| RpcClient.Own | commlib_py/transports/amqp.py:672-675 | the replies the client keeps are among those that arrived, each accepted by the correlation check |
| RpcClient.OwnKeepsAccepted | commlib_py/transports/amqp.py:672-675 | every reply that passes the correlation check is kept |
| RpcClient.OwnLastIsLastAccepted | commlib_py/transports/amqp.py:663-712 | the last reply kept is an accepted arrival after which every reply fails the correlation check |
| RpcClient.RequestAction | commlib_py/transports/amqp.py:784-800 | the request goes on the default exchange to the RPC's name with message id "0", the direct reply-to address and the outstanding correlation id |
| RpcClient.LastOwnReplyStored | commlib_py/transports/amqp.py:663-712 | after a run of replies the slot is unchanged when none was accepted, and otherwise holds the last accepted reply and its metadata: stale ids never touch `_response` |
| RpcClient.NoOwnReply | commlib_py/transports/amqp.py:672-675 | no reply is accepted exactly when, under correlation ids, every reply carries another id |
| RpcClient.UnknownTypeReplyLooksLikeTimeout | commlib_py/transports/amqp.py:746-763 | a reply with an unknown tag decodes to None and `call` then answers the timeout record |
| RpcClient.CallResultMeaning | commlib_py/transports/amqp.py:736-740 | `call` answers the timeout record exactly when nothing (None) is stored or the stored reply is that record; otherwise the stored reply |
| RpcClient.FirstRaise | commlib_py/transports/amqp.py:708-712 | the position of the first reply that is accepted and makes `onresponse` raise, every earlier one not raising, or the number of replies |
| RpcClient.QuietCallbackDispatchesAll | commlib_py/transports/amqp.py:711-712 | without a callback, or with one that never raises, every reply is dispatched |
| RpcClient.ServerReplyReachesCaller | commlib_py/transports/amqp.py:540-552 | the server answers a client request exactly when its response is a dict, str or bytes that encodes; the reply goes to the `reply_to` the broker handed the server (the address it generates for direct reply-to) with the request's fresh id, is accepted by the client, and decodes to the server's response |
| RpcClient.ForwardAsWrittenDropsValues | commlib_py/transports/amqp.py:623 | as written, the base class receives no keyword argument: each becomes a positional argument holding its name, after the given positional ones |
| RpcClient.RpcNameKeywordIsLost | commlib_py/transports/amqp.py:623 | `rpc_name='add'` reaches the base class as the positional `'rpc_name'`, and `'add'` is lost |
| RpcClient.ForwardKeepsKeywords | commlib_py/transports/amqp.py:623 | forwarded as intended, every keyword argument reaches the base class and the positional ones are kept |
| RpcClient.RPCClient.constructor | commlib_py/transports/amqp.py:613-628 | the given (intended) configuration, no correlation id, no stored reply, no `onresponse`, a fresh unconnected transport |
| RpcClient.RPCClient.Start | commlib_py/transports/amqp.py:630-637 | connect, then consume from the direct reply-to address with automatic acks |
| RpcClient.RPCClient.OnResponse | commlib_py/transports/amqp.py:663-712 | the stored slot becomes `OnReply` of the old one; the outstanding id is unchanged; it fails exactly when the reply is accepted and `onresponse` raises, with that exception, after the reply is stored |
| RpcClient.RPCClient.SendData | commlib_py/transports/amqp.py:765-800 | a serializer error, a missing or closed channel, or a payload other than dict, str or bytes logs nothing and fails; otherwise exactly the request action is logged |
| RpcClient.RPCClient.WaitForResponse | commlib_py/transports/amqp.py:742-744 | the replies are dispatched in order up to and including the first on which `onresponse` raises; that exception is the result |
| RpcClient.RPCClient.Call | commlib_py/transports/amqp.py:718-740 | the stored reply is cleared first; a fresh id is drawn only under correlation ids; a failed send propagates; the request is logged; the slot is the old one after the replies dispatched; the answer is the `onresponse` exception or the stored reply or the timeout record |
| PubSub.PublishAction | commlib_py/transports/amqp.py:857-867 | a message to the topic on the publisher's exchange with message id "0", no correlation id and no reply address |
| PubSub.PublishedPayloadReadBack | commlib_py/transports/amqp.py:839-867 | a subscriber reads back exactly the dict, str or bytes payload the publisher sent |
| PubSub.Publisher.constructor | commlib_py/transports/amqp.py:813-822 | exchange `amq.topic` by default and a fresh unconnected transport |
| PubSub.Publisher.Start | commlib_py/transports/amqp.py:823-825 | connect, then declare the exchange as a durable topic exchange |
| PubSub.Publisher.Publish | commlib_py/transports/amqp.py:827-867 | exactly one publish of the encoded payload to the topic; a serializer error, a missing or closed channel, or a payload other than dict, str or bytes logs nothing and fails |
| PubSub.Subscriber.constructor | commlib_py/transports/amqp.py:890-924 | the given queue settings, no queue yet, the initial estimator state |
| PubSub.Subscriber.Start | commlib_py/transports/amqp.py:905-920 | connect; passive exchange check, whose refusal by the broker closes the channel and propagates, whatever else it raises propagates too; exclusive queue with the subscriber's size, TTL, overflow and 300000 ms expiry; bind it to the topic; the whole log in each case |
| PubSub.Subscriber.RunForever | commlib_py/transports/amqp.py:942-948 | consume from the subscriber's queue with automatic acks; no connection raises AttributeError, no queue name TypeError, a closed channel the driver's error |
| PubSub.Subscriber.CalcMsgFrequency | commlib_py/transports/amqp.py:1006-1019 | the estimator moves by exactly one `Step` for the clock reading and keeps its invariant |
| PubSub.Subscriber.OnMsgCallbackWrapper | commlib_py/transports/amqp.py:958-1004 | the estimator steps whether or not a callback is set; the callback is applied to the decoded message (raw body when decoding raises) and its metadata, and its exception propagates |
| PubSub.Subscriber.Close | commlib_py/transports/amqp.py:935-940 | no connection raises; a closed channel answers False; an open one deletes the subscriber's queue and answers None |
| PubSub.RateAfterMessages | commlib_py/transports/amqp.py:1006-1019 | after any run of messages the estimator's invariant holds |
| RateEstimator.AppendLeft | commlib_py/transports/amqp.py:922 | `appendleft` with `maxlen` 100: the new sample goes in front, the rest shift right, the oldest drops when full |
| RateEstimator.NonZero | commlib_py/transports/amqp.py:1016 | the non-zero filter keeps exactly the non-zero samples, never lengthens the history and keeps a non-zero front sample |
| RateEstimator.NonZeroOfSamples | commlib_py/transports/amqp.py:1016 | on a valid history the filter drops nothing |
| RateEstimator.ReciprocalOfGap | commlib_py/transports/amqp.py:1009-1014 | a gap of at least 10 ms gives a frequency in (0, 100] Hz |
| RateEstimator.StepKeepsValid | commlib_py/transports/amqp.py:1006-1019 | every step keeps at most 100 samples, each in (0, 100], and `hz` the mean of the samples |
| RateEstimator.BurstOnlyMovesLastSeen | commlib_py/transports/amqp.py:1008-1012 | a gap under 10 ms changes only the last-seen time; a longer gap pushes `1/gap` in front |
| RateEstimator.HzBounded | commlib_py/transports/amqp.py:1014-1018 | once a sample is held, `hz` is in (0, 100] |
| RateEstimator.SteadyStreamConverges | commlib_py/transports/amqp.py:1006-1019 | a stream spaced `dt >= 10 ms` apart holds one sample `1/dt` per later message, at most 100, and reports exactly `1/dt` |
| RateEstimator.FiftyMillisecondStreamReadsTwentyHz | commlib_py/transports/amqp.py:1006-1019 | messages 50 ms apart read 20 Hz from the second message on |
| Endpoints.EndpointValue | commlib/endpoints.py:4-10 | endpoint type values lie in 1..6 |
| Endpoints.TransportValue | commlib/endpoints.py:13-15 | transport type values lie in 1..2 |
| Endpoints.EnumValuesDistinct | commlib/endpoints.py:4-15 | different members have different values |
| Endpoints.EndpointFactory | commlib/endpoints.py:18-36 | an unknown transport raises ValueError; an unknown endpoint type gives None; otherwise the class of the transport's backend named after the endpoint type |
| Endpoints.UnknownTransportRaisesFirst | commlib/endpoints.py:19-24 | an unknown transport raises whatever the endpoint type |
| Endpoints.BackendDependsOnlyOnTransport | commlib/endpoints.py:19-22 | AMQP selects the amqp backend and REDIS the redis backend, whatever the endpoint type |
| Endpoints.FactoryTotalAndInjective | commlib/endpoints.py:18-36 | every pair of enum members yields a class, and different pairs yield different classes |
| Endpoints.ClassNameInjective | commlib/endpoints.py:25-36 | each endpoint type reads a different attribute of the backend |

## Left out

- The broker driver itself is not modelled: wire operations, blocking `start_consuming` and `process_data_events`. Each operation is a logged action. The broker's answer is an input only to the connection attempts and to the two passive declarations (`exchange_exists`, `queue_exists`).
- RpcClient.ServerReplyReachesCaller: apart from the `reply_to` the broker generates for direct reply-to, a delivery carries the properties it was published with; other rewriting by the broker is not modelled.
- PubSub.PublishedPayloadReadBack: the delivery carries the properties the publisher set, so it has no headers; a broker plugin that adds a `timestamp_in_ms` header is not modelled, and with one the subscriber would read a broker and producer timestamp.
- Transport.AMQPTransport.Perform: the broker accepts every non-passive operation on an open channel (declare, bind, QoS, consume, publish, ack, delete, cancel). A broker refusal, which the source propagates as the channel being closed by the broker, is not modelled; the success cases of `RPCServer.RunForever`, `Publisher.Start` and `Subscriber.Start` rest on that.
- CreateExchange (Transport.AMQPTransport.CreateExchange): the broker's refusal of the declaration, for example a type that clashes with an existing exchange of the same name, is not modelled; the declaration always succeeds on an open channel.
- CreateQueue (Transport.AMQPTransport.CreateQueue): the broker's refusal of `queue_declare`, for example an exclusive declaration of a queue another connection holds, is not modelled; the declaration always succeeds on an open channel and returns the assigned name.
- `process_amqp_events` and the thread-safe callback in `Publisher.publish`: `publish` is modelled as running `_send_data` directly, because the indirection exists only for concurrency.
- The subscriber's `Semaphore` around the rate update is left out, because it only guards against concurrent callbacks.
- Call latency is left out: `_delay`, `mean_delay` and the `time.time()` readings around `call`. It is measurement only and does not affect any result.
- Logging, `atexit` and signal registration, `__str__`, SSL and credentials are left out; they have no effect on the modelled state.
- `is_alive` is left out: it only reads the connection state.
- The user callbacks `on_request`, `on_message` and `onresponse` are functions given to the model: what they receive, what they return and whether they raise are modelled. Their side effects are not part of this model.
- The base classes `AbstractRPCServer`, `AbstractRPCClient`, `AbstractPublisher` and `AbstractSubscriber` are not part of this model. The `super().stop()` at the end of `Subscriber.close` is therefore not modelled.
- The endpoint factory's backend modules, and the redis transport, are not part of this model. A returned class is named by its backend and attribute.
- Transport.AMQPTransport.Connect: the source retries by calling itself, with no bound of its own, so a long enough run of retried failures ends in Python's RecursionError after about a thousand nested attempts. The model consumes a finite sequence of attempt outcomes and ends in RetriesExhausted when they run out, which stands for either end.
- Transport.AMQPTransport.Connect: the source assigns `_connection` before `channel()` runs, so a `channel()` that raises leaves a new connection beside the old channel (None on a fresh transport, after which a graceful shutdown raises AttributeError). The three-state link cannot hold a connection without a channel: each attempt outcome opens both or neither.
- Transport.AMQPTransport.BasicPublish: refusing a body that is neither str nor bytes, and a routing key that is None, is the driver's behaviour, outside the source; it is modelled as one TypeError and one AssertionError raised before anything is sent. When both are wrong the model reports the body; which one the driver reports first depends on the body's kind.
- RpcClient.RPCClient.constructor: the base class `AbstractRPCClient` is not part of this model, so what it makes of the forwarded arguments is not modelled; the constructor takes the configuration the caller meant (see Findings).
- RpcClient.ClientIgnoresBrokerTimestamp: it rests on no base class defining a `headers` attribute; the base classes are not part of this model.
- RpcClient.RPCClient.OnResponse: `callable(self.onresponse)` is not modelled; a set `onresponse` is always a function here.
- PubSub.Subscriber.RunForever: the blocking `start_consuming` loop is not modelled. An Err from PubSub.Subscriber.OnMsgCallbackWrapper is the exception that `_consume` logs and re-raises, ending `run_forever`.
- PubSub.Subscriber.Start: the source's "create the exchange" branch is not modelled, because a passive exchange declaration that returns always answers DeclareOk.
- RpcClient.RPCClient.Start, PubSub.Publisher.Start, PubSub.Subscriber.Start: the source does this work inside the constructor. It is a separate method here because a constructor cannot report a failure.
- Transport.AMQPTransport.QueueExists: a driver exception other than the broker closing the channel propagates as a single BrokerError.
- The example scripts and bridges that drive these endpoints are not part of this model.

## Findings

| source | as written | input that shows it | evidently intended | confidence | as-written member | corrected member |
|---|---|---|---|---|---|---|
| commlib_py/transports/amqp.py:445-451 | the guard tests `self._rpc_exists() and raise_if_exists`, but `queue_exists` returns None (falsy) when the passive declaration succeeds, i.e. when the queue is visible to the connection | start a server with `raise_if_exists=True` whose RPC queue its own connection can declare passively (a queue not held exclusively by another connection): the declaration succeeds, the guard does not fire, and the server goes on to declare and consume (the model takes the broker to accept that declaration, see Left out on Perform and CreateQueue) | refuse to start when the queue is present: a None from `queue_exists` counts as present | not executed | RpcServer.RunGuardAsWritten (RpcServer.ExistingQueueSlipsPastGuard, RpcServer.RunGuardAsWrittenMeaning, RpcServer.RPCServer.RunForever with `AsWritten`) | RpcServer.RunGuard (RpcServer.RunGuardMeansQueuePresent, RpcServer.RPCServer.RunForever with `Corrected`) |
| commlib_py/transports/amqp.py:623 | `super(RPCClient, self).__init__(*args, *kwargs)` unpacks the keyword dict with a single star, which yields its keys | `RPCClient(conn_params=p, rpc_name='add')`: the base class receives the positional argument `'rpc_name'` and no keyword, so `'add'` never reaches it | `**kwargs`, as the RPC server, the publisher and the subscriber forward | plausible, not executed; the base class is not part of this model | RpcClient.ForwardAsWritten (RpcClient.ForwardAsWrittenDropsValues, RpcClient.RpcNameKeywordIsLost) | RpcClient.Forward (RpcClient.ForwardKeepsKeywords, used by RpcClient.RPCClient.constructor) |
