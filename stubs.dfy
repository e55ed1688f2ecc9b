/**
 * The client stub: `invokeRemote` wraps an RpcRequest into a request command
 * with a fresh id, sends it, waits for the response and turns it into the
 * result bytes or an exception. The generated stub method serializes its
 * argument, calls `invokeRemote` and parses the result.
 *
 * `transport.send(command).get()` (send, then block until the future is
 * completed) is the `exchange` parameter: what the future is completed with.
 */
module Stubs {
  import opened Wrappers
  import opened Lang
  import opened Commands
  import opened Serialization
  import opened InFlight
  import opened Transport

  /** How the blocking `get()` on the response future ends. */
  datatype FutureOutcome =
    | Responded(response: Command)            // completed with a response command
    | CompletedExceptionally(cause: Throwable) // get() throws ExecutionException(cause)
    | WaitInterrupted                         // get() throws InterruptedException

  /** The process-wide request id counter (`RequestIdSupport`), wrapping as Java `int` does. */
  class RequestIdCounter {
    var next: Int32

    constructor ()
      ensures next == 0
    {
      next := 0;
    }

    method Next() returns (id: Int32)
      modifies this
      ensures id == old(next)
      ensures next == Wrap32(old(next) + 1)
    {
      id := next;
      next := Wrap32(next + 1);
    }
  }

  const HEADER_CLASS: ClassName := "com.github.liyue2008.rpc.transport.command.Header"
  const RESPONSE_HEADER_CLASS: ClassName := "com.github.liyue2008.rpc.transport.command.ResponseHeader"

  /** The request command `invokeRemote` sends: an RPC request header, version 1, the given id. */
  function RequestCommand(requestId: Int32, payload: seq<Int8>): (c: Command)
    ensures c.header.RequestHeader?
    ensures c.header.commandType == TYPE_RPC_REQUEST && c.header.version == PROTOCOL_VERSION
    ensures c.header.requestId == requestId && c.payload == payload
  {
    Command(RequestHeader(requestId, PROTOCOL_VERSION, TYPE_RPC_REQUEST), payload)
  }

  /**
   * What `invokeRemote` makes of the completed future: the payload of a
   * SUCCESS response; otherwise a RuntimeException wrapping either the
   * future's failure cause or an exception carrying the server's error text.
   */
  function Reply(outcome: FutureOutcome): (r: Result<seq<Int8>, Throwable>)
    ensures r.Ok? <==>
      outcome.Responded? && outcome.response.header.ResponseHeader? && outcome.response.header.code == Success.Value()
    ensures r.Ok? ==> r.value == outcome.response.payload
    ensures r.Err? ==> r.error.Runtime?
    ensures outcome.CompletedExceptionally? ==> r == Err(Runtime(outcome.cause))
    ensures outcome.Responded? && outcome.response.header.ResponseHeader? && !r.Ok? ==>
      r.error.cause == Plain(outcome.response.header.error)
  {
    match outcome
    case CompletedExceptionally(cause) => Err(Runtime(cause))
    case WaitInterrupted => Err(Runtime(Interrupted))
    case Responded(response) =>
      if !response.header.ResponseHeader? then Err(Runtime(ClassCast(HEADER_CLASS, RESPONSE_HEADER_CLASS)))
      else if response.header.code == Success.Value() then Ok(response.payload)
      else Err(Runtime(Plain(response.header.error)))
  }

  /**
   * What the blocking `get()` on a future in this state returns: nothing yet
   * while it is pending (the call keeps waiting), else how it completed.
   */
  function Awaited(state: FutureState): (o: Option<FutureOutcome>)
    ensures o.None? <==> state.Pending?
    ensures state.Completed? ==> o == Some(Responded(state.response))
    ensures state.Failed? ==> o == Some(CompletedExceptionally(state.cause))
  {
    match state
    case Pending => None
    case Completed(response) => Some(Responded(response))
    case Failed(cause) => Some(CompletedExceptionally(cause))
  }

  /**
   * `transport.send(command).get()` as `invokeRemote` runs it, up to the reply:
   * the send's own failures reach the caller as a RuntimeException around
   * their cause; a successful write leaves the caller waiting for a response.
   */
  method SendAndAwait(transport: NettyTransport, request: Command, write: WriteOutcome, now: int)
    returns (r: Option<Result<seq<Int8>, Throwable>>)
    modifies transport.inFlightRequests, transport.channel
    ensures old(transport.inFlightRequests.permits) <= 0 ==> r == Some(Err(Runtime(Timeout)))
    ensures old(transport.inFlightRequests.permits) > 0 ==>
      match write
      case Written => r == None
      case WriteThrows(error) => r == Some(Err(Runtime(error)))
      case WriteFailsLater(cause) => r == Some(Err(Runtime(cause)))
  {
    var future := transport.Send(request, write, now);
    match Awaited(future.state)
    case None => r := None;
    case Some(outcome) => r := Some(Reply(outcome));
  }

  /**
   * `invokeRemote(request)` once the id is drawn: serializing the request
   * happens before the `try`, so its failure is not wrapped; everything after
   * it (a null transport, the exchange, the response code) is.
   */
  function InvokeRemoteResult(
    registry: Registry, request: RpcRequest, requestId: Int32, hasTransport: bool, exchange: Command -> FutureOutcome
  ): (r: Result<seq<Int8>, Throwable>)
  {
    match Serialized(registry, RequestValue(request))
    case Err(e) => Err(e)
    case Ok(payload) =>
      if !hasTransport then Err(Runtime(NullReference))
      else Reply(exchange(RequestCommand(requestId, payload)))
  }

  /**
   * The generated stub method:
   * `return parse(invokeRemote(new RpcRequest(interfaceName, methodName, serialize(arg))))`,
   * the result cast to String.
   */
  function CallResult(
    registry: Registry, interfaceName: string, methodName: string, arg: string,
    requestId: Int32, hasTransport: bool, exchange: Command -> FutureOutcome
  ): (r: Result<string, Throwable>)
  {
    match Serialized(registry, StringValue(arg))
    case Err(e) => Err(e)
    case Ok(argBytes) =>
      match InvokeRemoteResult(registry, RpcRequest(interfaceName, methodName, argBytes), requestId, hasTransport, exchange)
      case Err(e) => Err(e)
      case Ok(resultBytes) =>
        match Parse(registry, resultBytes)
        case Err(e) => Err(e)
        case Ok(v) => if v.StringValue? then Ok(v.text) else Err(ClassCast(ClassOf(v), STRING_CLASS))
  }

  /** A stub instance: the generated class's interface and method, and its transport. */
  class Stub {
    var transport: NettyTransport?
    /** The generated class's full name. */
    const className: string
    /** The generated source text. */
    const source: string
    const interfaceName: string
    const methodName: string

    constructor (className: string, source: string, interfaceName: string, methodName: string)
      ensures this.className == className && this.source == source
      ensures this.interfaceName == interfaceName && this.methodName == methodName
      ensures transport == null
    {
      this.className := className;
      this.source := source;
      this.interfaceName := interfaceName;
      this.methodName := methodName;
      transport := null;
    }

    /** `setTransport`: only the transport changes (the other fields are immutable). */
    method SetTransport(transport: NettyTransport?)
      modifies this
      ensures this.transport == transport
    {
      this.transport := transport;
    }

    /**
     * `invokeRemote(request)`: draw a fresh id, build the request header and
     * command, serialize the request as payload, send and wait.
     */
    method InvokeRemote(
      request: RpcRequest, support: SerializeSupport, ids: RequestIdCounter, exchange: Command -> FutureOutcome
    ) returns (r: Result<seq<Int8>, Throwable>)
      modifies ids
      ensures ids.next == Wrap32(old(ids.next) + 1)
      ensures r == InvokeRemoteResult(support.State(), request, old(ids.next), transport != null, exchange)
      ensures Serialized(support.State(), RequestValue(request)).Ok? && transport != null ==>
        r == Reply(exchange(RequestCommand(old(ids.next), Serialized(support.State(), RequestValue(request)).value)))
    {
      var requestId := ids.Next();
      var header := new Header(TYPE_RPC_REQUEST, PROTOCOL_VERSION, requestId);
      var payload := support.Serialize(RequestValue(request));
      if payload.Err? {
        return Err(payload.error);
      }
      var requestCommand := Command(header.Snapshot(), payload.value[..]);
      if transport == null {
        return Err(Runtime(NullReference));
      }
      r := Reply(exchange(requestCommand));
    }

    /**
     * The generated method of the stub class. The id is drawn only once the
     * argument has been serialized.
     */
    method Call(arg: string, support: SerializeSupport, ids: RequestIdCounter, exchange: Command -> FutureOutcome)
      returns (r: Result<string, Throwable>)
      modifies ids
      ensures r == CallResult(support.State(), interfaceName, methodName, arg, old(ids.next), transport != null, exchange)
      ensures ids.next == if Serialized(support.State(), StringValue(arg)).Ok? then Wrap32(old(ids.next) + 1) else old(ids.next)
    {
      var argBytes := support.Serialize(StringValue(arg));
      if argBytes.Err? {
        return Err(argBytes.error);
      }
      var resultBytes := InvokeRemote(RpcRequest(interfaceName, methodName, argBytes.value[..]), support, ids, exchange);
      if resultBytes.Err? {
        return Err(resultBytes.error);
      }
      var v := Parse(support.State(), resultBytes.value);
      if v.Err? {
        return Err(v.error);
      }
      r := if v.value.StringValue? then Ok(v.value.text) else Err(ClassCast(ClassOf(v.value), STRING_CLASS));
    }
  }
}
