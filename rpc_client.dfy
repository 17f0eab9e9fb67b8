/** `RPCClient`: publishes a request to the RPC's queue with the direct reply-to
    address, lets the driver dispatch whatever replies arrive before the time
    limit, keeps the last one it accepts, and answers with it or with the
    timeout record. */
module RpcClient {
  import opened Wrappers
  import opened Values
  import opened Envelope
  import opened Negotiation
  import opened Transport
  import RpcServer

  /** The pseudo-queue of the broker's direct reply-to feature. */
  const ReplyTo: string := "amq.rabbitmq.reply-to"

  /** What `call` returns when no reply was stored. */
  const Timeout: Value := Dict(map["error" := Str("RPC Response timeout")])

  datatype ClientConfig = ClientConfig(rpcName: string, ser: Serializer, ct: ContentTypes, codec: TextCodec)

  /** The `properties` part of `_response_meta`. */
  datatype ResponseMeta = ResponseMeta(
    contentType: Option<string>,
    contentEncoding: Option<string>,
    timestampBroker: int,
    timestampProducer: Option<int>,
    deliveryMode: Option<int>)

  /** The metadata of an accepted reply. The header lookup is guarded by
      `hasattr(self, 'headers')`, asked of the client object rather than of the
      reply's properties; the client class defines no such attribute, so the
      broker timestamp keeps its initial 0. */
  function ResponseMetaOf(d: Delivery): ResponseMeta
  {
    ResponseMeta(d.props.contentType, d.props.contentEncoding, 0, d.props.timestamp, d.props.deliveryMode)
  }

  /** The client never reads the broker's timestamp header: a reply's metadata
      is the same whatever headers it carries, and its broker timestamp is 0;
      type, encoding, delivery mode and producer timestamp are the reply's own. */
  lemma ClientIgnoresBrokerTimestamp(d: Delivery, h: Option<map<string, Value>>)
    ensures ResponseMetaOf(d).timestampBroker == 0
    ensures ResponseMetaOf(d.(props := d.props.(headers := h))) == ResponseMetaOf(d)
    ensures ResponseMetaOf(d) == ResponseMetaOf(d.(body := [], deliveryTag := 0))
    ensures var m := ResponseMetaOf(d);
      m.contentType == d.props.contentType && m.deliveryMode == d.props.deliveryMode &&
      m.contentEncoding == d.props.contentEncoding && m.timestampProducer == d.props.timestamp
  {
  }

  /** The user's `onresponse` callback, called with every accepted reply and
      its metadata; an Err is an exception it raises. */
  type ResponseHandler = (Value, ResponseMeta) -> Result<(), string>

  /** `_response` and `_response_meta`. */
  datatype Slot = Slot(response: Value, meta: Option<ResponseMeta>)

  /** Whether `_on_response` keeps a reply: always without correlation ids,
      otherwise only when its id is the outstanding one. */
  predicate Accepts(useCorrId: bool, corrId: Option<string>, d: Delivery)
  {
    !useCorrId || corrId == d.props.correlationId
  }

  /** The stored reply: decoded by its tag, None for a tag the client does not
      know, the raw body when decoding raises. */
  function ResponseOf(cfg: ClientConfig, d: Delivery): Value
  {
    DecodeOrRaw(cfg.ser, cfg.ct, cfg.codec, YieldNone, d.body, d.props.contentType, d.props.contentEncoding)
  }

  /** `_on_response` on the stored slot. */
  function OnReply(cfg: ClientConfig, useCorrId: bool, corrId: Option<string>, s: Slot, d: Delivery): Slot
  {
    if Accepts(useCorrId, corrId, d) then Slot(ResponseOf(cfg, d), Some(ResponseMetaOf(d))) else s
  }

  /** The slot after the replies `rs` are dispatched in arrival order. */
  function AfterReplies(cfg: ClientConfig, useCorrId: bool, corrId: Option<string>, s: Slot,
                        rs: seq<Delivery>): Slot
  {
    if rs == [] then s
    else OnReply(cfg, useCorrId, corrId, AfterReplies(cfg, useCorrId, corrId, s, rs[..|rs| - 1]), rs[|rs| - 1])
  }

  /** The replies the client accepts, in arrival order. */
  function Own(useCorrId: bool, corrId: Option<string>, rs: seq<Delivery>): (o: seq<Delivery>)
    ensures |o| <= |rs|
    ensures forall i :: 0 <= i < |o| ==> Accepts(useCorrId, corrId, o[i]) && o[i] in rs
  {
    if rs == [] then []
    else Own(useCorrId, corrId, rs[..|rs| - 1]) +
         (if Accepts(useCorrId, corrId, rs[|rs| - 1]) then [rs[|rs| - 1]] else [])
  }

  /** `Own` misses no accepted reply. */
  lemma {:induction false} OwnKeepsAccepted(useCorrId: bool, corrId: Option<string>, rs: seq<Delivery>)
    ensures forall i :: 0 <= i < |rs| && Accepts(useCorrId, corrId, rs[i]) ==> rs[i] in Own(useCorrId, corrId, rs)
  {
    if rs != [] {
      var n := |rs| - 1;
      var pre := rs[..n];
      OwnKeepsAccepted(useCorrId, corrId, pre);
      var tail := if Accepts(useCorrId, corrId, rs[n]) then [rs[n]] else [];
      assert Own(useCorrId, corrId, rs) == Own(useCorrId, corrId, pre) + tail;
      forall i | 0 <= i < |rs| && Accepts(useCorrId, corrId, rs[i])
        ensures rs[i] in Own(useCorrId, corrId, rs)
      {
        if i < n {
          assert rs[i] == pre[i];
        } else {
          assert rs[i] in tail;
        }
      }
    }
  }

  /** The last reply `Own` keeps is the last accepted one: every later reply
      carries another correlation id. */
  lemma {:induction false} OwnLastIsLastAccepted(useCorrId: bool, corrId: Option<string>, rs: seq<Delivery>)
    ensures var o := Own(useCorrId, corrId, rs);
      o != [] ==> exists j :: 0 <= j < |rs| && o[|o| - 1] == rs[j] && Accepts(useCorrId, corrId, rs[j])
                            && forall k :: j < k < |rs| ==> !Accepts(useCorrId, corrId, rs[k])
  {
    var o := Own(useCorrId, corrId, rs);
    if o != [] {
      var n := |rs| - 1;
      var pre := rs[..n];
      if Accepts(useCorrId, corrId, rs[n]) {
        assert o[|o| - 1] == rs[n];
      } else {
        OwnLastIsLastAccepted(useCorrId, corrId, pre);
        assert o == Own(useCorrId, corrId, pre);
        var j :| 0 <= j < |pre| && o[|o| - 1] == pre[j] && Accepts(useCorrId, corrId, pre[j])
                 && forall k :: j < k < |pre| ==> !Accepts(useCorrId, corrId, pre[k]);
        assert rs[j] == pre[j];
        forall k | j < k < |rs| ensures !Accepts(useCorrId, corrId, rs[k]) {
          if k < n { assert rs[k] == pre[k]; }
        }
      }
    }
  }

  /** Whether `onresponse` raises on the reply `d`: the reply is accepted, a
      callback is set, and the callback fails on the stored value and meta. */
  predicate CallbackRaises(cfg: ClientConfig, useCorrId: bool, corrId: Option<string>,
                           h: Option<ResponseHandler>, d: Delivery)
  {
    Accepts(useCorrId, corrId, d) && h.Some? && h.value(ResponseOf(cfg, d), ResponseMetaOf(d)).Err?
  }

  /** The position of the first reply on which `onresponse` raises, or the
      number of replies when it never does. */
  function FirstRaise(cfg: ClientConfig, useCorrId: bool, corrId: Option<string>,
                      h: Option<ResponseHandler>, rs: seq<Delivery>): (k: nat)
    ensures k <= |rs|
    ensures forall j :: 0 <= j < k ==> !CallbackRaises(cfg, useCorrId, corrId, h, rs[j])
    ensures k < |rs| ==> CallbackRaises(cfg, useCorrId, corrId, h, rs[k])
  {
    if rs == [] then 0
    else if CallbackRaises(cfg, useCorrId, corrId, h, rs[0]) then 0
    else 1 + FirstRaise(cfg, useCorrId, corrId, h, rs[1..])
  }

  /** Without a callback, or with one that never raises, every reply is dispatched. */
  lemma {:induction false} QuietCallbackDispatchesAll(cfg: ClientConfig, useCorrId: bool, corrId: Option<string>,
                                                      h: Option<ResponseHandler>, rs: seq<Delivery>)
    requires h.None? || forall v, m :: h.value(v, m).Ok?
    ensures FirstRaise(cfg, useCorrId, corrId, h, rs) == |rs|
  {
    if rs != [] {
      QuietCallbackDispatchesAll(cfg, useCorrId, corrId, h, rs[1..]);
    }
  }

  /** `call`'s answer from the stored reply. */
  function CallResult(response: Value): Value
  {
    if response == Null then Timeout else response
  }

  /** The request `_send_data` publishes: on the default exchange, to the RPC's
      name, with message id 0, the direct reply-to address and the outstanding
      correlation id. */
  function RequestAction(cfg: ClientConfig, corrId: Option<string>, enc: Encoded, now: real): (a: Action)
    ensures a.Publish? && a.exchange == "" && a.routingKey == Some(cfg.rpcName)
    ensures a.props.replyTo == Some(ReplyTo) && a.props.correlationId == corrId
    ensures a.props.messageId == Some("0")
    ensures a.props.contentType == enc.contentType && a.props.contentEncoding == enc.contentEncoding
    ensures a.body == enc.payload
  {
    Publish("", Some(cfg.rpcName),
            MessageProperties(now, contentType := enc.contentType, contentEncoding := enc.contentEncoding,
                              correlationId := corrId, messageId := Some(SInt(0)), replyTo := Some(ReplyTo)),
            enc.payload)
  }

  /** Dispatching one more reply is one more `_on_response`. */
  lemma AfterOneMore(cfg: ClientConfig, useCorrId: bool, corrId: Option<string>, s: Slot,
                     rs: seq<Delivery>, d: Delivery)
    ensures AfterReplies(cfg, useCorrId, corrId, s, rs + [d]) ==
            OnReply(cfg, useCorrId, corrId, AfterReplies(cfg, useCorrId, corrId, s, rs), d)
    ensures Own(useCorrId, corrId, rs + [d]) ==
            Own(useCorrId, corrId, rs) + (if Accepts(useCorrId, corrId, d) then [d] else [])
  {
    assert (rs + [d])[..|rs|] == rs;
  }

  /** Only the client's own replies matter: the slot after a run of replies is
      the slot before it when the client accepted none, and otherwise holds
      the last reply it accepted. A stale or foreign reply is dropped without
      touching `_response` or `_response_meta`. */
  lemma {:induction false} LastOwnReplyStored(cfg: ClientConfig, useCorrId: bool, corrId: Option<string>,
                                              s: Slot, rs: seq<Delivery>)
    ensures var o := Own(useCorrId, corrId, rs);
      && (o == [] ==> AfterReplies(cfg, useCorrId, corrId, s, rs) == s)
      && (o != [] ==> AfterReplies(cfg, useCorrId, corrId, s, rs) ==
                      Slot(ResponseOf(cfg, o[|o| - 1]), Some(ResponseMetaOf(o[|o| - 1]))))
  {
    if rs != [] {
      var init := rs[..|rs| - 1];
      var d := rs[|rs| - 1];
      assert rs == init + [d];
      LastOwnReplyStored(cfg, useCorrId, corrId, s, init);
      AfterOneMore(cfg, useCorrId, corrId, s, init, d);
    }
  }

  /** The client accepts none of the replies exactly when, under correlation
      ids, every one of them carries another id. */
  lemma {:induction false} NoOwnReply(useCorrId: bool, corrId: Option<string>, rs: seq<Delivery>)
    ensures Own(useCorrId, corrId, rs) == [] <==>
      (rs == [] || (useCorrId && forall i :: 0 <= i < |rs| ==> rs[i].props.correlationId != corrId))
  {
    if rs != [] {
      var init := rs[..|rs| - 1];
      NoOwnReply(useCorrId, corrId, init);
      if useCorrId && forall i :: 0 <= i < |init| ==> init[i].props.correlationId != corrId {
        if rs[|rs| - 1].props.correlationId != corrId {
          forall i | 0 <= i < |rs| ensures rs[i].props.correlationId != corrId {
            if i < |init| { assert rs[i] == init[i]; }
          }
        }
      } else if useCorrId && init != [] {
        var i :| 0 <= i < |init| && init[i].props.correlationId == corrId;
        assert rs[i] == init[i];
      }
    }
  }

  /** A reply whose tag the client does not know decodes to None, and `call`
      then answers as if no reply had come. */
  lemma UnknownTypeReplyLooksLikeTimeout(cfg: ClientConfig, d: Delivery)
    requires d.props.contentType !in {Some(cfg.ct.json), Some(cfg.ct.text), Some(cfg.ct.rawBytes)}
    ensures ResponseOf(cfg, d) == Null
    ensures CallResult(ResponseOf(cfg, d)) == Timeout
  {
  }

  /** `call` answers the timeout record exactly when nothing, or None, was
      stored, or the stored reply is itself that record. */
  lemma CallResultMeaning(response: Value)
    ensures CallResult(response) == Timeout <==> response == Null || response == Timeout
    ensures response != Null ==> CallResult(response) == response
  {
  }

  /** A request and the server's answer to it fit together. The broker hands
      the server the request's properties with `reply_to` replaced by the
      address it generates for the direct reply-to pseudo-queue
      (`brokerReplyTo`). The server answers exactly when its response is a
      dict, a str or bytes that encodes; it then publishes the reply to that
      generated address with the request's fresh id, the client accepts it,
      and, when both sides agree on the tags and the codecs invert
      themselves, the client reads back exactly the server's response. */
  lemma ServerReplyReachesCaller(ccfg: ClientConfig, scfg: RpcServer.ServerConfig, payload: Value,
                                 freshId: string, brokerReplyTo: string, now: real, replyNow: real,
                                 tag: nat, replyTag: nat)
    requires Encode(ccfg.ser, ccfg.codec, payload).Ok?
    requires BodyBytes(ccfg.codec, Encode(ccfg.ser, ccfg.codec, payload).value.payload).Some?
    requires var req := RequestAction(ccfg, Some(freshId), Encode(ccfg.ser, ccfg.codec, payload).value, now);
      var d := Delivery(req.props.(replyTo := Some(brokerReplyTo)), tag, BodyBytes(ccfg.codec, req.body).value);
      RpcServer.Response(scfg, d).Ok?
    ensures var req := RequestAction(ccfg, Some(freshId), Encode(ccfg.ser, ccfg.codec, payload).value, now);
      var d := Delivery(req.props.(replyTo := Some(brokerReplyTo)), tag, BodyBytes(ccfg.codec, req.body).value);
      var resp := RpcServer.Response(scfg, d).value;
      var ra := RpcServer.ReplyActions(scfg, d, replyNow);
      && (ra.Ok? <==> IsEncodable(resp) && Encode(scfg.ser, scfg.codec, resp).Ok?)
      && (ra.Ok? ==>
            var reply := ra.value[0];
            && reply.Publish? && reply.routingKey == Some(brokerReplyTo)
            && reply.props.correlationId == Some(freshId)
            && BodyBytes(scfg.codec, reply.body).Some?
            && var back := Delivery(reply.props, replyTag, BodyBytes(scfg.codec, reply.body).value);
               && Accepts(true, Some(freshId), back)
               && (ccfg.ser == scfg.ser && ccfg.ct == scfg.ct && ccfg.codec == scfg.codec &&
                   TagsAgree(scfg.ser, scfg.ct) && SerializerInverts(scfg.ser, scfg.codec) &&
                   Utf8Inverts(scfg.codec) ==>
                     ResponseOf(ccfg, back) == resp))
  {
    var req := RequestAction(ccfg, Some(freshId), Encode(ccfg.ser, ccfg.codec, payload).value, now);
    var d := Delivery(req.props.(replyTo := Some(brokerReplyTo)), tag, BodyBytes(ccfg.codec, req.body).value);
    RpcServer.ReplyCorrelatedThenAcked(scfg, d, replyNow);
    var resp := RpcServer.Response(scfg, d).value;
    if IsEncodable(resp) && Encode(scfg.ser, scfg.codec, resp).Ok? &&
       TagsAgree(scfg.ser, scfg.ct) && SerializerInverts(scfg.ser, scfg.codec) && Utf8Inverts(scfg.codec) {
      RoundTrip(scfg.ser, scfg.ct, scfg.codec, YieldNone, resp);
    }
  }

  /** The arguments the constructor hands on to its base class: positional
      ones, and keyword ones as (name, value) pairs in the order given. */
  datatype BaseArgs = BaseArgs(positional: seq<Value>, keywords: seq<(string, Value)>)

  /** `super().__init__(*args, *kwargs)` as written: the second star unpacks
      the keyword dict as an iterable, which yields its keys, so each keyword
      argument arrives as one more positional argument holding its name. */
  function ForwardAsWritten(args: seq<Value>, kwargs: seq<(string, Value)>): BaseArgs
  {
    BaseArgs(args + seq(|kwargs|, i requires 0 <= i < |kwargs| => Str(kwargs[i].0)), [])
  }

  /** The forwarding the other endpoints use, `super().__init__(*args, **kwargs)`. */
  function Forward(args: seq<Value>, kwargs: seq<(string, Value)>): BaseArgs
  {
    BaseArgs(args, kwargs)
  }

  /** As written, the base class receives no keyword argument at all: every
      keyword turns into a positional argument holding its name, after the
      positional ones, and its value is lost. */
  lemma ForwardAsWrittenDropsValues(args: seq<Value>, kwargs: seq<(string, Value)>)
    ensures var b := ForwardAsWritten(args, kwargs);
      && b.keywords == [] && |b.positional| == |args| + |kwargs| && b.positional[..|args|] == args
      && forall i :: 0 <= i < |kwargs| ==> b.positional[|args| + i] == Str(kwargs[i].0)
  {
  }

  /** `RPCClient(conn_params=p, rpc_name='add')`: the base class receives the
      single positional argument `'rpc_name'` and never sees `'add'`. */
  lemma RpcNameKeywordIsLost()
    ensures ForwardAsWritten([], [("rpc_name", Str("add"))]) == BaseArgs([Str("rpc_name")], [])
    ensures Str("add") !in ForwardAsWritten([], [("rpc_name", Str("add"))]).positional
  {
  }

  /** Forwarded with `**kwargs`, every keyword argument reaches the base class
      under its own name with its own value, and the positional ones are kept. */
  lemma ForwardKeepsKeywords(args: seq<Value>, kwargs: seq<(string, Value)>)
    ensures Forward(args, kwargs).positional == args
    ensures forall i :: 0 <= i < |kwargs| ==> kwargs[i] in Forward(args, kwargs).keywords
    ensures |Forward(args, kwargs).keywords| == |kwargs|
  {
  }

  class RPCClient {
    const cfg: ClientConfig
    const useCorrId: bool
    const transport: AMQPTransport
    var corrId: Option<string>
    var response: Value
    var responseMeta: Option<ResponseMeta>
    /** `onresponse`, a public attribute the user may set after construction. */
    var onResponse: Option<ResponseHandler>

    function Stored(): Slot
      reads this
    {
      Slot(response, responseMeta)
    }

    /** The constructor up to connecting. `cfg` is the configuration the
        caller's keyword arguments name, that is, as forwarded by `Forward`. */
    constructor(cfg: ClientConfig, connParams: Option<ConnectionParameters>, useCorrId: bool := false,
                debug: bool := false)
      ensures this.cfg == cfg && this.useCorrId == useCorrId && fresh(transport)
      ensures corrId.None? && response == Null && responseMeta.None? && onResponse.None?
      ensures transport.link == NoConnection && transport.log == [] && transport.debug == debug
      ensures transport.params == (if connParams.Some? then connParams.value else ConnectionParameters())
    {
      this.cfg := cfg;
      this.useCorrId := useCorrId;
      transport := new AMQPTransport(connParams, debug);
      corrId := None;
      response := Null;
      responseMeta := None;
      onResponse := None;
    }

    /** The rest of the source's constructor: connect, then consume from the
        direct reply-to address with automatic acks. */
    method Start(attempts: seq<ConnectOutcome>) returns (r: Result<(), Error>)
      modifies transport
      ensures ConnectVerdict(attempts).Err? ==>
        r == Err(ConnectVerdict(attempts).error) && transport.View() == old(transport.View())
      ensures ConnectVerdict(attempts).Ok? ==>
        r.Ok? && transport.link == Open && transport.log == old(transport.log) + [OpenChannel, Consume(ReplyTo, true)]
    {
      var c := transport.Connect(attempts);
      if c.Err? {
        return Err(c.error);
      }
      r := transport.Perform(Consume(ReplyTo, true));
    }

    /** `_on_response` for one reply: a reply with another id is dropped;
        an accepted one is stored and then handed to `onresponse`, whose
        exception is not caught. */
    method OnResponse(d: Delivery) returns (r: Result<(), Error>)
      modifies this
      ensures Stored() == OnReply(cfg, useCorrId, corrId, old(Stored()), d)
      ensures corrId == old(corrId) && onResponse == old(onResponse)
      ensures r.Err? <==> CallbackRaises(cfg, useCorrId, corrId, onResponse, d)
      ensures r.Err? ==> r == Err(HandlerError(onResponse.value(ResponseOf(cfg, d), ResponseMetaOf(d)).error))
    {
      if useCorrId && corrId != d.props.correlationId {
        return Ok(());
      }
      var msg := ResponseOf(cfg, d);
      var meta := ResponseMetaOf(d);
      response := msg;
      responseMeta := Some(meta);
      if onResponse.None? {
        return Ok(());
      }
      var out := onResponse.value(msg, meta);
      if out.Err? {
        return Err(HandlerError(out.error));
      }
      r := Ok(());
    }

    /** `_send_data`: encode the payload and publish the request with the
        outstanding correlation id. The serializer's exception propagates; a
        payload that is not a dict, a str or bytes leaves the body None, which
        the driver refuses. */
    method SendData(payload: Value, now: real) returns (r: Result<(), Error>)
      modifies transport
      ensures transport.link == old(transport.link)
      ensures Encode(cfg.ser, cfg.codec, payload).Err? ==>
        r == Err(SerializationError(Encode(cfg.ser, cfg.codec, payload).error)) && transport.log == old(transport.log)
      ensures Encode(cfg.ser, cfg.codec, payload).Ok? && old(transport.link) != Open ==>
        r == Err(NoChannelError(old(transport.link))) && transport.log == old(transport.log)
      ensures Encode(cfg.ser, cfg.codec, payload).Ok? && old(transport.link) == Open && !IsEncodable(payload) ==>
        r == Err(UnsendableBody) && transport.log == old(transport.log)
      ensures Encode(cfg.ser, cfg.codec, payload).Ok? && old(transport.link) == Open && IsEncodable(payload) ==>
        r.Ok? && transport.log == old(transport.log) + [RequestAction(cfg, corrId, Encode(cfg.ser, cfg.codec, payload).value, now)]
    {
      var enc := Encode(cfg.ser, cfg.codec, payload);
      if enc.Err? {
        return Err(SerializationError(enc.error));
      }
      EncodedBodySendable(cfg.ser, cfg.codec, payload);
      var req := RequestAction(cfg, corrId, enc.value, now);
      r := transport.BasicPublish(req.exchange, req.routingKey, req.props, req.body, cfg.codec);
    }

    /** `_wait_for_response`: the driver dispatches the replies `replies` that
        arrive before the time limit to `_on_response`, in arrival order,
        until one of them makes `onresponse` raise. */
    method WaitForResponse(replies: seq<Delivery>) returns (r: Result<(), Error>)
      modifies this
      ensures corrId == old(corrId) && onResponse == old(onResponse)
      ensures var k := FirstRaise(cfg, useCorrId, corrId, onResponse, replies);
        && Stored() == AfterReplies(cfg, useCorrId, corrId, old(Stored()),
                                    replies[..if k < |replies| then k + 1 else k])
        && (k < |replies| ==>
              r == Err(HandlerError(onResponse.value(ResponseOf(cfg, replies[k]), ResponseMetaOf(replies[k])).error)))
        && (k == |replies| ==> r.Ok?)
    {
      ghost var s0 := Stored();
      ghost var k := FirstRaise(cfg, useCorrId, corrId, onResponse, replies);
      for i := 0 to |replies|
        modifies this
        invariant corrId == old(corrId) && onResponse == old(onResponse)
        invariant i <= k
        invariant Stored() == AfterReplies(cfg, useCorrId, corrId, s0, replies[..i])
      {
        assert replies[..i + 1][..i] == replies[..i];
        var handled := OnResponse(replies[i]);
        if handled.Err? {
          return Err(handled.error);
        }
      }
      assert replies[..|replies|] == replies;
      r := Ok(());
    }

    /** `call`: clear the stored reply, draw the fresh id `freshId` when
        correlation ids are used, publish the request, dispatch the replies
        `replies` that arrive before the time limit, and answer. The
        serializer's exception propagates, a payload that is not a dict, a str
        or bytes leaves the body None, which the driver refuses, and an
        exception of `onresponse` ends the dispatch and escapes `call`. */
    method Call(payload: Value, now: real, freshId: string, replies: seq<Delivery>) returns (r: Result<Value, Error>)
      modifies this, transport
      ensures corrId == if useCorrId then Some(freshId) else old(corrId)
      ensures onResponse == old(onResponse)
      ensures transport.link == old(transport.link)
      ensures Encode(cfg.ser, cfg.codec, payload).Err? ==>
        r == Err(SerializationError(Encode(cfg.ser, cfg.codec, payload).error)) &&
        response == Null && responseMeta == old(responseMeta) && transport.log == old(transport.log)
      ensures Encode(cfg.ser, cfg.codec, payload).Ok? && old(transport.link) != Open ==>
        r == Err(NoChannelError(old(transport.link))) &&
        response == Null && responseMeta == old(responseMeta) && transport.log == old(transport.log)
      ensures Encode(cfg.ser, cfg.codec, payload).Ok? && old(transport.link) == Open && !IsEncodable(payload) ==>
        r == Err(UnsendableBody) &&
        response == Null && responseMeta == old(responseMeta) && transport.log == old(transport.log)
      ensures Encode(cfg.ser, cfg.codec, payload).Ok? && old(transport.link) == Open && IsEncodable(payload) ==>
        var k := FirstRaise(cfg, useCorrId, corrId, onResponse, replies);
        && transport.log == old(transport.log) + [RequestAction(cfg, corrId, Encode(cfg.ser, cfg.codec, payload).value, now)]
        && Stored() == AfterReplies(cfg, useCorrId, corrId, Slot(Null, old(responseMeta)),
                                    replies[..if k < |replies| then k + 1 else k])
        && (k < |replies| ==>
              r == Err(HandlerError(onResponse.value(ResponseOf(cfg, replies[k]), ResponseMetaOf(replies[k])).error)))
        && (k == |replies| ==> r == Ok(CallResult(response)))
    {
      response := Null;
      if useCorrId {
        corrId := Some(freshId);
      }
      var sent := SendData(payload, now);
      if sent.Err? {
        return Err(sent.error);
      }
      var waited := WaitForResponse(replies);
      if waited.Err? {
        return Err(waited.error);
      }
      r := Ok(CallResult(response));
    }
  }
}
