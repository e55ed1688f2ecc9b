/**
 * A call through a stub answered by a request handler: the client side's
 * exchange is the server side's `handle` applied to the request command.
 */
module EndToEnd {
  import opened Wrappers
  import opened Lang
  import opened Commands
  import opened Serialization
  import opened Server
  import opened Stubs

  /**
   * The exchange a stub sees when its request reaches a handler with these
   * providers: the handler's response, passed as a value, completes the
   * future. When `handle` itself throws, no response is sent; that case is
   * shown here as a future completed with the exception, and the lemmas below
   * only use requests the handler answers.
   */
  function ServerExchange(
    providers: map<string, ProviderId>, registry: Registry, reflection: Reflection, jvm: JvmMessages
  ): (exchange: Command -> FutureOutcome)
  {
    (c: Command) =>
      match Handle(providers, c, registry, reflection, jvm)
      case Ok(response) => Responded(response)
      case Err(e) => CompletedExceptionally(e)
  }

  /** Both sides share a registry under which strings and requests round-trip. */
  ghost predicate SharedCodec(registry: Registry, arg: string)
  {
    && RoundTrips(registry, StringValue(arg))
    && forall request: RpcRequest :: RoundTrips(registry, RequestValue(request))
  }

  /** The request command a stub sends for `arg`, and the RPC request it carries. */
  lemma Delivered(registry: Registry, iface: string, methodName: string, arg: string, id: Int32)
    returns (argBytes: seq<Int8>, command: Command)
    requires SharedCodec(registry, arg)
    ensures Serialized(registry, StringValue(arg)) == Ok(argBytes)
    ensures Parse(registry, argBytes) == Ok(StringValue(arg))
    ensures Serialized(registry, RequestValue(RpcRequest(iface, methodName, argBytes))).Ok?
    ensures command == RequestCommand(id, Serialized(registry, RequestValue(RpcRequest(iface, methodName, argBytes))).value)
    ensures Carries(registry, command, RpcRequest(iface, methodName, argBytes))
  {
    RoundTrip(registry, StringValue(arg));
    argBytes := Serialized(registry, StringValue(arg)).value;
    RoundTrip(registry, RequestValue(RpcRequest(iface, methodName, argBytes)));
    command := RequestCommand(id, Serialized(registry, RequestValue(RpcRequest(iface, methodName, argBytes))).value);
  }

  /** A provider method that returns `result` makes the stub call return `result`. */
  lemma CallReturnsResult(
    providers: map<string, ProviderId>, registry: Registry, reflection: Reflection, jvm: JvmMessages,
    iface: string, methodName: string, arg: string, result: string, id: Int32)
    requires SharedCodec(registry, arg) && RoundTrips(registry, StringValue(result))
    requires iface in providers && (providers[iface], methodName) in reflection
    requires reflection[(providers[iface], methodName)](arg) == Returned(result)
    ensures CallResult(registry, iface, methodName, arg, id, true, ServerExchange(providers, registry, reflection, jvm)) == Ok(result)
  {
    var argBytes, command := Delivered(registry, iface, methodName, arg, id);
    RoundTrip(registry, StringValue(result));
    HandleSuccess(providers, command, RpcRequest(iface, methodName, argBytes), arg, result, registry, reflection, jvm);
  }

  /** An interface with no provider makes the stub call fail with "No provider!". */
  lemma CallWithoutProvider(
    providers: map<string, ProviderId>, registry: Registry, reflection: Reflection, jvm: JvmMessages,
    iface: string, methodName: string, arg: string, id: Int32)
    requires SharedCodec(registry, arg)
    requires iface !in providers
    ensures CallResult(registry, iface, methodName, arg, id, true, ServerExchange(providers, registry, reflection, jvm)) ==
      Err(Runtime(Plain(Some("No provider!"))))
  {
    var argBytes, command := Delivered(registry, iface, methodName, arg, id);
    HandleNoProvider(providers, command, RpcRequest(iface, methodName, argBytes), registry, reflection, jvm);
  }

  /**
   * A provider method that throws makes the stub call fail. The response's
   * error is the message of the reflective wrapper, which is null, so the
   * thrown exception's own message is lost; with the response passed as a
   * value, the caller's exception carries that null.
   */
  lemma CallToThrowingMethod(
    providers: map<string, ProviderId>, registry: Registry, reflection: Reflection, jvm: JvmMessages,
    iface: string, methodName: string, arg: string, cause: Throwable, id: Int32)
    requires SharedCodec(registry, arg)
    requires iface in providers && (providers[iface], methodName) in reflection
    requires reflection[(providers[iface], methodName)](arg) == Threw(cause)
    ensures CallResult(registry, iface, methodName, arg, id, true, ServerExchange(providers, registry, reflection, jvm)) ==
      Err(Runtime(Plain(None)))
  {
    var argBytes, command := Delivered(registry, iface, methodName, arg, id);
    HandleFailure(providers, command, RpcRequest(iface, methodName, argBytes), registry, reflection, jvm);
  }

  /** A method the provider does not have makes the stub call fail with the lookup's message. */
  lemma CallToMissingMethod(
    providers: map<string, ProviderId>, registry: Registry, reflection: Reflection, jvm: JvmMessages,
    iface: string, methodName: string, arg: string, id: Int32)
    requires SharedCodec(registry, arg)
    requires iface in providers && (providers[iface], methodName) !in reflection
    ensures CallResult(registry, iface, methodName, arg, id, true, ServerExchange(providers, registry, reflection, jvm)) ==
      Err(Runtime(Plain(jvm(NoSuchMethod(methodName)))))
  {
    var argBytes, command := Delivered(registry, iface, methodName, arg, id);
    HandleFailure(providers, command, RpcRequest(iface, methodName, argBytes), registry, reflection, jvm);
  }
}
