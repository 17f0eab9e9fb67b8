/** The endpoint factory: from an endpoint type and a transport type to the
    endpoint class of the transport's backend module. The backend modules
    themselves are not part of this model; a class is named by its backend and
    the attribute the factory reads from it. */
module Endpoints {
  import opened Wrappers

  datatype EndpointType = RPCService | RPCClient | Publisher | Subscriber | ActionServer | ActionClient

  datatype TransportType = AMQP | REDIS

  /** The enum member's value. */
  function EndpointValue(e: EndpointType): (v: int)
    ensures 1 <= v <= 6
  {
    match e
    case RPCService => 1
    case RPCClient => 2
    case Publisher => 3
    case Subscriber => 4
    case ActionServer => 5
    case ActionClient => 6
  }

  function TransportValue(t: TransportType): (v: int)
    ensures 1 <= v <= 2
  {
    match t
    case AMQP => 1
    case REDIS => 2
  }

  /** The values are distinct, so each member is identified by its value. */
  lemma EnumValuesDistinct(e1: EndpointType, e2: EndpointType, t1: TransportType, t2: TransportType)
    ensures EndpointValue(e1) == EndpointValue(e2) <==> e1 == e2
    ensures TransportValue(t1) == TransportValue(t2) <==> t1 == t2
  {
  }

  /** An argument as the factory receives it: one of the enum's members or any
      other Python value, which equals none of them. */
  datatype EndpointArg = Endpoint(e: EndpointType) | OtherEndpoint
  datatype TransportArg = Transport(t: TransportType) | OtherTransport

  /** The backend module imported for a transport. */
  datatype Backend = AmqpBackend | RedisBackend

  function BackendOf(t: TransportType): Backend
  {
    if t == AMQP then AmqpBackend else RedisBackend
  }

  /** The attribute of the backend module the factory returns for an endpoint type. */
  function ClassName(e: EndpointType): string
  {
    match e
    case RPCService => "RPCService"
    case RPCClient => "RPCClient"
    case Publisher => "Publisher"
    case Subscriber => "Subscriber"
    case ActionServer => "ActionServer"
    case ActionClient => "ActionClient"
  }

  datatype EndpointClass = EndpointClass(backend: Backend, name: string)

  /** `endpoint_factory`. An unknown transport raises ValueError; an unknown
      endpoint type falls off the end of the chain and yields None. */
  function EndpointFactory(etype: EndpointArg, etransport: TransportArg): (r: Result<Option<EndpointClass>, Error>)
    ensures etransport.OtherTransport? <==> r.Err?
    ensures r.Err? ==> r.error == ValueError("")
    ensures r.Ok? ==> (r.value.None? <==> etype.OtherEndpoint?)
    ensures r.Ok? && r.value.Some? ==>
      r.value.value.backend == BackendOf(etransport.t) && r.value.value.name == ClassName(etype.e)
  {
    match etransport
    case OtherTransport => Err(ValueError(""))
    case Transport(t) =>
      var comm := BackendOf(t);
      match etype
      case OtherEndpoint => Ok(None)
      case Endpoint(e) => Ok(Some(EndpointClass(comm, ClassName(e))))
  }

  /** The transport is examined first: an unknown one raises whatever the
      endpoint type is. */
  lemma UnknownTransportRaisesFirst(e1: EndpointArg, e2: EndpointArg)
    ensures EndpointFactory(e1, OtherTransport) == EndpointFactory(e2, OtherTransport) == Err(ValueError(""))
  {
  }

  /** The backend depends only on the transport: two endpoint types on the same
      transport come from the same module. */
  lemma BackendDependsOnlyOnTransport(e1: EndpointType, e2: EndpointType, t: TransportType)
    ensures EndpointFactory(Endpoint(e1), Transport(t)).value.value.backend ==
            EndpointFactory(Endpoint(e2), Transport(t)).value.value.backend
    ensures EndpointFactory(Endpoint(e1), Transport(t)).value.value.backend == (if t == AMQP then AmqpBackend else RedisBackend)
  {
  }

  /** Over the 6 x 2 enum pairs the factory is total and injective: every pair
      yields a class, and different pairs yield different classes. */
  lemma FactoryTotalAndInjective(e1: EndpointType, t1: TransportType, e2: EndpointType, t2: TransportType)
    ensures EndpointFactory(Endpoint(e1), Transport(t1)).Ok?
    ensures EndpointFactory(Endpoint(e1), Transport(t1)).value.Some?
    ensures EndpointFactory(Endpoint(e1), Transport(t1)) == EndpointFactory(Endpoint(e2), Transport(t2)) <==>
            e1 == e2 && t1 == t2
  {
    var r1 := EndpointFactory(Endpoint(e1), Transport(t1));
    var r2 := EndpointFactory(Endpoint(e2), Transport(t2));
    if r1 == r2 {
      assert ClassName(e1) == ClassName(e2);
      ClassNameInjective(e1, e2);
    }
  }

  lemma ClassNameInjective(e1: EndpointType, e2: EndpointType)
    requires ClassName(e1) == ClassName(e2)
    ensures e1 == e2
  {
  }
}
