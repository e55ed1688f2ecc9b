/**
 * The server side: the registry of service providers and the dispatch of an
 * RPC request command to the provider's method. Reflection (looking a method
 * up by name on the provider's class and invoking it) is a map from
 * (provider, method name) to what the method does with its String argument.
 */
module Server {
  import opened Wrappers
  import opened Lang
  import opened Commands
  import opened Serialization

  /** A registered service implementation, by identity. */
  type ProviderId = nat

  /**
   * What an invoked service method does: return a String, return null, return
   * an object of another class (a method found by name and parameter type need
   * not return String), or throw.
   */
  datatype InvokeOutcome =
    | Returned(result: string)
    | ReturnedNull
    | ReturnedOther(cls: ClassName)   // an object of a class other than String
    | Threw(cause: Throwable)

  /** The methods `getMethod(name, String.class)` finds on each provider's class. */
  type Reflection = map<(ProviderId, string), string -> InvokeOutcome>

  /** How the `try` block of `handle` ends. */
  datatype Dispatch = Found(result: seq<Int8>) | Missing | Failed(error: Throwable)

  /**
   * The `try` block of `handle`: find the provider, parse the String argument,
   * find the method, invoke it and serialize its result.
   */
  function DispatchRequest(
    providers: map<string, ProviderId>, request: RpcRequest, registry: Registry, reflection: Reflection): (d: Dispatch)
    ensures d.Missing? <==> request.interfaceName !in providers
  {
    if request.interfaceName !in providers then Missing
    else
      var provider := providers[request.interfaceName];
      match Parse(registry, request.serializedArguments)
      case Err(e) => Failed(e)
      case Ok(arg) =>
        if !arg.StringValue? then Failed(ClassCast(ClassOf(arg), STRING_CLASS))
        else if (provider, request.methodName) !in reflection then Failed(NoSuchMethod(request.methodName))
        else
          match reflection[(provider, request.methodName)](arg.text)
          case Threw(cause) => Failed(InvocationTarget(cause))
          // the `(String)` cast rejects another class
          case ReturnedOther(cls) => Failed(ClassCast(cls, STRING_CLASS))
          // the cast lets null through; serializing it dereferences null
          case ReturnedNull => Failed(NullReference)
          case Returned(result) =>
            match Serialized(registry, StringValue(result))
            case Err(e) => Failed(e)
            case Ok(bytes) => Found(bytes)
  }

  /**
   * `handle(requestCommand)`, given the handler's provider map: parse the
   * payload as an RpcRequest (a failure here propagates), then answer with
   * exactly one response command.
   */
  function Handle(
    providers: map<string, ProviderId>, request: Command, registry: Registry, reflection: Reflection, jvm: JvmMessages
  ): (r: Result<Command, Throwable>)
  {
    match Parse(registry, request.payload)
    case Err(e) => Err(e)
    case Ok(v) =>
      if !v.RequestValue? then Err(ClassCast(ClassOf(v), RPC_REQUEST_CLASS))
      else
        var h := request.header;
        match DispatchRequest(providers, v.request, registry, reflection)
        case Found(bytes) =>
          Ok(Command(SuccessHeader(TYPE_RPC_REQUEST, h.version, h.requestId), bytes))
        case Missing =>
          Ok(Command(ResponseHeader(h.requestId, h.version, TYPE_RPC_REQUEST, NoProvider.Value(), Some("No provider!")), []))
        case Failed(t) =>
          Ok(Command(ResponseHeader(h.requestId, h.version, TYPE_RPC_REQUEST, UnknownError.Value(), Message(t, jvm)), []))
  }

  /** The payload of a request command decodes to this RPC request. */
  ghost predicate Carries(registry: Registry, request: Command, rpc: RpcRequest)
  {
    Parse(registry, request.payload) == Ok(RequestValue(rpc))
  }

  /**
   * `handle` turns every request whose payload decodes to an RpcRequest into a
   * response echoing its id and version, of type RPC request, whose code is
   * one of the three codes.
   */
  lemma HandleEchoes(
    providers: map<string, ProviderId>, request: Command, rpc: RpcRequest,
    registry: Registry, reflection: Reflection, jvm: JvmMessages)
    requires Carries(registry, request, rpc)
    ensures var r := Handle(providers, request, registry, reflection, jvm);
      && r.Ok?
      && r.value.header.ResponseHeader?
      && r.value.header.requestId == request.header.requestId
      && r.value.header.version == request.header.version
      && r.value.header.commandType == TYPE_RPC_REQUEST
      && r.value.header.code in {Success.Value(), NoProvider.Value(), UnknownError.Value()}
      && (r.value.header.code != Success.Value() ==> r.value.payload == [])
  {
  }

  /** A payload that does not decode to an RpcRequest is not answered: `handle` throws. */
  lemma HandleUndecodablePayload(
    providers: map<string, ProviderId>, request: Command, registry: Registry, reflection: Reflection, jvm: JvmMessages)
    requires Parse(registry, request.payload).Err? || !Parse(registry, request.payload).value.RequestValue?
    ensures Handle(providers, request, registry, reflection, jvm).Err?
    ensures Parse(registry, request.payload).Err? ==>
      Handle(providers, request, registry, reflection, jvm).error == Parse(registry, request.payload).error
  {
  }

  /** An unregistered interface name is answered with NO_PROVIDER, "No provider!" and no payload. */
  lemma HandleNoProvider(
    providers: map<string, ProviderId>, request: Command, rpc: RpcRequest,
    registry: Registry, reflection: Reflection, jvm: JvmMessages)
    requires Carries(registry, request, rpc)
    ensures var r := Handle(providers, request, registry, reflection, jvm);
      r.Ok? && (r.value.header.code == NoProvider.Value() <==> rpc.interfaceName !in providers)
    ensures rpc.interfaceName !in providers ==>
      var r := Handle(providers, request, registry, reflection, jvm).value;
      r.header.error == Some("No provider!") && r.payload == []
  {
  }

  /**
   * A registered provider whose method returns `result` for the argument is
   * answered with a success header and `serialize(result)` as payload.
   */
  lemma HandleSuccess(
    providers: map<string, ProviderId>, request: Command, rpc: RpcRequest, arg: string, result: string,
    registry: Registry, reflection: Reflection, jvm: JvmMessages)
    requires Carries(registry, request, rpc)
    requires rpc.interfaceName in providers
    requires Parse(registry, rpc.serializedArguments) == Ok(StringValue(arg))
    requires (providers[rpc.interfaceName], rpc.methodName) in reflection
    requires reflection[(providers[rpc.interfaceName], rpc.methodName)](arg) == Returned(result)
    requires Serialized(registry, StringValue(result)).Ok?
    ensures Handle(providers, request, registry, reflection, jvm) ==
      Ok(Command(SuccessHeader(TYPE_RPC_REQUEST, request.header.version, request.header.requestId),
                 Serialized(registry, StringValue(result)).value))
  {
  }

  /**
   * Every failure inside the `try` (the argument does not parse or is not a
   * String, the method does not exist, it throws, its result does not
   * serialize) is answered with UNKNOWN_ERROR, that exception's message and
   * no payload; a method that throws yields the message of the reflective
   * wrapper, which is null, not the thrown exception's.
   */
  lemma HandleFailure(
    providers: map<string, ProviderId>, request: Command, rpc: RpcRequest,
    registry: Registry, reflection: Reflection, jvm: JvmMessages)
    requires Carries(registry, request, rpc)
    requires DispatchRequest(providers, rpc, registry, reflection).Failed?
    ensures var r := Handle(providers, request, registry, reflection, jvm).value;
      && r.header.code == UnknownError.Value()
      && r.header.error == Message(DispatchRequest(providers, rpc, registry, reflection).error, jvm)
      && r.payload == []
    ensures DispatchRequest(providers, rpc, registry, reflection).error.InvocationTarget? ==>
      Handle(providers, request, registry, reflection, jvm).value.header.error == None
  {
  }

  /**
   * A provider method returning an object that is not a String is answered
   * with UNKNOWN_ERROR and the message of the failed cast.
   */
  lemma HandleNonStringResult(
    providers: map<string, ProviderId>, request: Command, rpc: RpcRequest, arg: string, cls: ClassName,
    registry: Registry, reflection: Reflection, jvm: JvmMessages)
    requires Carries(registry, request, rpc)
    requires rpc.interfaceName in providers
    requires Parse(registry, rpc.serializedArguments) == Ok(StringValue(arg))
    requires (providers[rpc.interfaceName], rpc.methodName) in reflection
    requires reflection[(providers[rpc.interfaceName], rpc.methodName)](arg) == ReturnedOther(cls)
    ensures Handle(providers, request, registry, reflection, jvm) ==
      Ok(Command(ResponseHeader(request.header.requestId, request.header.version, TYPE_RPC_REQUEST,
                                UnknownError.Value(), jvm(ClassCast(cls, STRING_CLASS))), []))
  {
  }

  /** The handler object (`RpcRequestHandler`): the provider map, keyed by service name. */
  class RpcRequestHandler {
    var serviceProviders: map<string, ProviderId>

    constructor ()
      ensures serviceProviders == map[]
    {
      serviceProviders := map[];
    }

    /** `type()`: the command kind this handler serves. */
    function Type(): (t: Int32)
      ensures t == TYPE_RPC_REQUEST
    {
      TYPE_RPC_REQUEST
    }

    /** `addServiceProvider`: the provider replaces any earlier one for the same name; other names are untouched. */
    method AddServiceProvider(serviceClass: ServiceClass, provider: ProviderId)
      modifies this
      ensures serviceProviders == old(serviceProviders)[serviceClass.Name() := provider]
      ensures forall name :: name != serviceClass.Name() ==>
        (name in serviceProviders <==> name in old(serviceProviders)) &&
        (name in serviceProviders ==> serviceProviders[name] == old(serviceProviders)[name])
    {
      serviceProviders := serviceProviders[serviceClass.Name() := provider];
    }
  }
}
