# simple-rpc-framework protocol core, in Dafny

This project models the protocol core of a small Java RPC framework and proves
properties of the model. The client side has three parts:

- a generated stub serializes the argument into an `RpcRequest`;
- it wraps the request in a command whose header has a fresh request id;
- it sends the command through the Netty transport, which registers a
  response future with the in-flight tracker before writing.

On the server, a request handler decodes the request, looks up the provider
registered for the interface, invokes the method and answers with exactly
one response command. Both sides share a type-tagged serializer registry.

Modules, one per source component:

- `Lang`: the Java runtime facts the core depends on. These are `int` and
  `byte`, class names, the objects that go through the serializer, service
  interfaces, the exceptions and `getMessage()`.
- `Commands`: the response codes, the request and response headers as
  values, and the mutable `Header` class.
- `Serialization`: the registry maps, `registerType`, `parse` and its
  overloads, and `serialize`. The `SerializeSupport` class holds the two
  static maps. Its `Serialize` method fills a fresh byte array.
- `InFlight`: the permit pool and future map of `InFlightRequests`, with
  `put`, `remove` and the timeout sweep.
- `Transport`: `NettyTransport.send` over the tracker and a channel.
- `Server`: `RpcRequestHandler.handle`, `type` and `addServiceProvider`.
- `Stubs`: `AbstractStub.invokeRemote` and `setTransport`, the request id
  counter, and the method the stub template generates.
- `StubFactory`: the name derivation and template filling of
  `DynamicStubFactory.createStub`.
- `AccessPoint`: the default `RpcAccessPoint.getNameService` selection loop.
- `EndToEnd`: a stub call answered by the request handler.

Collaborators outside the core are parameters of the model:

- The clock (`System.nanoTime()`) is the `now` argument.
- The channel write is a `WriteOutcome` argument.
- Waiting on the response future (`transport.send(..).get()`) is an
  `exchange` function from the request command to how the future ends.
- Reflection is a map from (provider, method name) to what the method does
  with its argument.
- Compiling and loading the generated stub is an optional failure argument.
- The text the JVM puts into its own exceptions is a `jvm` function.

Behaviour of the code worth noting:

- When a method throws on the server, the response's error is null and the
  thrown message is lost. The handler reports `t.getMessage()` of the
  reflective `InvocationTargetException`, which has no message of its own.
  See `Server.HandleFailure` and `EndToEnd.CallToThrowingMethod`.
- An asynchronous write failure fails the future and closes the channel. It
  leaves the tracker entry and its permit in place until the sweep removes
  them. See `Transport.NettyTransport.Send`.
- `send` never throws. When no permit is free, the future it returns has
  already failed with the `TimeoutException`.
- A request payload that does not decode is not turned into an error
  response. The decode runs before the `try`, so `handle` throws. See
  `Server.HandleUndecodablePayload`.
- The timeout sweep removes expired entries but does not fail their
  futures, although the comment above it (InFlightRequests.java:59-63) says
  an expired future is to be ended as failed. See the Findings section.

## Model

| member | source | states |
|---|---|---|
| Lang.Decimal | rpc-netty/src/main/java/com/github/liyue2008/rpc/serialize/SerializeSupport.java:80 | `%d` of a byte prints a minus sign exactly for negative values, then decimal digits without leading zeros that spell the absolute value |
| Commands.Code.Value | rpc-netty/src/main/java/com/github/liyue2008/rpc/client/stubs/AbstractStub.java:85-89 | the code value is 0 exactly for SUCCESS, so every other code takes the error branch |
| Commands.SuccessHeader | rpc-netty/src/main/java/com/github/liyue2008/rpc/server/RpcRequestHandler.java:63 | the short `ResponseHeader` constructor gives a SUCCESS response header carrying the given type, version and request id |
| Commands.Header.Empty | rpc-netty/src/main/java/com/github/liyue2008/rpc/transport/command/Header.java:35 | the no-argument constructor leaves all three fields 0 |
| Commands.Header.constructor | rpc-netty/src/main/java/com/github/liyue2008/rpc/transport/command/Header.java:36-40 | each argument lands in its own field, although the parameters come in the order (type, version, requestId) |
| Commands.Header.GetRequestId | rpc-netty/src/main/java/com/github/liyue2008/rpc/transport/command/Header.java:41-43 | returns the stored request id |
| Commands.Header.SetRequestId | rpc-netty/src/main/java/com/github/liyue2008/rpc/transport/command/Header.java:45-47 | changes the request id and nothing else |
| Commands.Header.GetVersion | rpc-netty/src/main/java/com/github/liyue2008/rpc/transport/command/Header.java:49-51 | returns the stored version |
| Commands.Header.SetVersion | rpc-netty/src/main/java/com/github/liyue2008/rpc/transport/command/Header.java:53-55 | changes the version and nothing else |
| Commands.Header.GetType | rpc-netty/src/main/java/com/github/liyue2008/rpc/transport/command/Header.java:57-59 | returns the stored type |
| Commands.Header.Length | rpc-netty/src/main/java/com/github/liyue2008/rpc/transport/command/Header.java:61-63 | the encoded header length is 12 bytes whatever the field values |
| Commands.Header.SetType | rpc-netty/src/main/java/com/github/liyue2008/rpc/transport/command/Header.java:65-67 | changes the type and nothing else |
| Serialization.RegisteredIsConsistent | rpc-netty/src/main/java/com/github/liyue2008/rpc/serialize/SerializeSupport.java:47-54 | after the initializer registers the plugins, every tag names a class that has a serializer |
| Serialization.RegisteredClass | rpc-netty/src/main/java/com/github/liyue2008/rpc/serialize/SerializeSupport.java:47-61 | a class has a serializer iff some plugin serializes it, and then its serializer is the last such plugin (last write wins) |
| Serialization.RegisteredTag | rpc-netty/src/main/java/com/github/liyue2008/rpc/serialize/SerializeSupport.java:47-61 | a tag is known iff some plugin owns it, and then it names the class of the last plugin owning it |
| Serialization.DistinctPluginsAllRegistered | rpc-netty/src/main/java/com/github/liyue2008/rpc/serialize/SerializeSupport.java:47-61 | with pairwise distinct tags and classes nothing is overwritten: each plugin sits under its class and its tag leads back to its class |
| Serialization.ParseEntryType | rpc-netty/src/main/java/com/github/liyue2008/rpc/serialize/SerializeSupport.java:55-57 | the tag is the first byte; an empty buffer raises an index exception |
| Serialization.ParseAs | rpc-netty/src/main/java/com/github/liyue2008/rpc/serialize/SerializeSupport.java:63-70 | no serializer for the class gives a null dereference; otherwise the serializer's decoding of the slice is returned if its class is assignable, else "Type mismatch!" |
| Serialization.Parse | rpc-netty/src/main/java/com/github/liyue2008/rpc/serialize/SerializeSupport.java:71-85 | an empty buffer fails; an unknown first byte fails with "Unknown entry type"; a known tag decodes from offset 1 with length-1 under the tag's class; a success is always of the tag's class |
| Serialization.ParseKnownTag | rpc-netty/src/main/java/com/github/liyue2008/rpc/serialize/SerializeSupport.java:75-83 | in a consistent registry a known tag yields exactly what its serializer decodes from the bytes after the tag, type-checked |
| Serialization.Serialized | rpc-netty/src/main/java/com/github/liyue2008/rpc/serialize/SerializeSupport.java:87-97 | fails with "Unknown entry class type" iff the class has no serializer; otherwise size+1 bytes: the tag, then the serializer's encoding |
| Serialization.RoundTrip | rpc-netty/src/main/java/com/github/liyue2008/rpc/serialize/SerializeSupport.java:71-97 | parse(serialize(v)) == v when v's serializer reads back what it writes and its tag maps back to v's class |
| Serialization.RegisteredRoundTrip | rpc-netty/src/main/java/com/github/liyue2008/rpc/serialize/SerializeSupport.java:47-97 | a registry built from distinct plugins round-trips every object whose plugin reads back what it writes |
| Serialization.SerializeSupport.constructor | rpc-netty/src/main/java/com/github/liyue2008/rpc/serialize/SerializeSupport.java:47-54 | the static initializer's loop leaves exactly the registry of the plugins registered in order |
| Serialization.SerializeSupport.RegisterType | rpc-netty/src/main/java/com/github/liyue2008/rpc/serialize/SerializeSupport.java:58-61 | overwrites both maps at the given class and tag; every other entry is unchanged |
| Serialization.SerializeSupport.Serialize | rpc-netty/src/main/java/com/github/liyue2008/rpc/serialize/SerializeSupport.java:87-97 | the array it fills holds exactly the bytes of `Serialized`, and it throws exactly its error |
| InFlight.Future.CompleteExceptionally | rpc-netty/src/main/java/com/github/liyue2008/rpc/transport/netty/NettyTransport.java:68 | a pending future becomes failed with the cause; a completed one is left as it was |
| InFlight.SweepPartition | rpc-netty/src/main/java/com/github/liyue2008/rpc/transport/InFlightRequests.java:65-74 | the sweep splits the entries into kept and removed ones, so the kept count plus the released permits equals the old count |
| InFlight.InFlightRequests.constructor | rpc-netty/src/main/java/com/github/liyue2008/rpc/transport/InFlightRequests.java:40-44 | 10 free permits and no pending request |
| InFlight.InFlightRequests.Put | rpc-netty/src/main/java/com/github/liyue2008/rpc/transport/InFlightRequests.java:51-57 | succeeds iff a permit is free, taking it and storing the future under its id; otherwise a TimeoutException with nothing changed; balance survives iff the id was new |
| InFlight.InFlightRequests.Remove | rpc-netty/src/main/java/com/github/liyue2008/rpc/transport/InFlightRequests.java:76-82 | removes and returns the entry, releasing one permit iff there was one; otherwise returns null and changes nothing |
| InFlight.InFlightRequests.RemoveTimeoutFutures | rpc-netty/src/main/java/com/github/liyue2008/rpc/transport/InFlightRequests.java:65-74 | keeps exactly the entries with now - timestamp <= 10 s and releases one permit per removed entry; futures are untouched |
| InFlight.InFlightRequests.RemoveAndFailTimeoutFutures | rpc-netty/src/main/java/com/github/liyue2008/rpc/transport/InFlightRequests.java:59-74 | the sweep the comment describes: the same removal, and every removed future still pending ends failed with a TimeoutException |
| InFlight.SweepLeavesFuturePending | rpc-netty/src/main/java/com/github/liyue2008/rpc/transport/InFlightRequests.java:65-74 | a request swept after 10 s is gone from the map, its permit is back, and its future is still pending |
| InFlight.SweepFailsFuture | rpc-netty/src/main/java/com/github/liyue2008/rpc/transport/InFlightRequests.java:59-63 | with the corrected sweep the same future ends failed with a TimeoutException |
| Transport.Channel.Close | rpc-netty/src/main/java/com/github/liyue2008/rpc/transport/netty/NettyTransport.java:69 | the channel is closed afterwards |
| Transport.NettyTransport.Send | rpc-netty/src/main/java/com/github/liyue2008/rpc/transport/netty/NettyTransport.java:48-78 | returns a fresh future in every case. No permit: the entry under the id is removed and the future fails with the TimeoutException. The write throws: the entry is removed again and the future fails with that error. Async failure: the entry stays, the future fails and the channel closes. Success: the entry stays and the future is pending |
| Server.DispatchRequest | rpc-netty/src/main/java/com/github/liyue2008/rpc/server/RpcRequestHandler.java:54-64 | the `try` block ends with "no provider" exactly when the interface name is not registered |
| Server.HandleEchoes | rpc-netty/src/main/java/com/github/liyue2008/rpc/server/RpcRequestHandler.java:50-73 | a decodable request gets exactly one response that echoes the request id and version, has type RPC request, one of the three codes, and no payload unless SUCCESS |
| Server.HandleUndecodablePayload | rpc-netty/src/main/java/com/github/liyue2008/rpc/server/RpcRequestHandler.java:53 | a payload that is not an RpcRequest makes `handle` throw, with the parse's own exception when parsing fails |
| Server.HandleNoProvider | rpc-netty/src/main/java/com/github/liyue2008/rpc/server/RpcRequestHandler.java:56-67 | the code is NO_PROVIDER iff the interface is unregistered, and then the error is "No provider!" with an empty payload |
| Server.HandleSuccess | rpc-netty/src/main/java/com/github/liyue2008/rpc/server/RpcRequestHandler.java:57-63 | a provider method returning r gives the success header and payload serialize(r) |
| Server.HandleNonStringResult | rpc-netty/src/main/java/com/github/liyue2008/rpc/server/RpcRequestHandler.java:59-72 | a provider method returning an object that is not a String gets UNKNOWN_ERROR with the failed cast's message and no payload |
| Server.HandleFailure | rpc-netty/src/main/java/com/github/liyue2008/rpc/server/RpcRequestHandler.java:68-72 | any failure in the `try` gives UNKNOWN_ERROR, that exception's message and an empty payload; a throwing method gives a null message |
| Server.RpcRequestHandler.constructor | rpc-netty/src/main/java/com/github/liyue2008/rpc/server/RpcRequestHandler.java:47 | no provider is registered |
| Server.RpcRequestHandler.Type | rpc-netty/src/main/java/com/github/liyue2008/rpc/server/RpcRequestHandler.java:76-78 | the handler serves RPC request commands |
| Server.RpcRequestHandler.AddServiceProvider | rpc-netty/src/main/java/com/github/liyue2008/rpc/server/RpcRequestHandler.java:81-82 | the provider replaces any earlier one under the interface's name; every other name keeps its provider |
| Stubs.RequestIdCounter.Next | rpc-netty/src/main/java/com/github/liyue2008/rpc/client/stubs/AbstractStub.java:73 | returns the current id and advances the counter by one, wrapping as Java `int` |
| Stubs.RequestCommand | rpc-netty/src/main/java/com/github/liyue2008/rpc/client/stubs/AbstractStub.java:73-75 | the request command has an RPC request header, version 1, the drawn id and the serialized request as payload |
| Stubs.Awaited | rpc-netty/src/main/java/com/github/liyue2008/rpc/client/stubs/AbstractStub.java:83 | `get()` on a pending future keeps waiting; on a completed one it yields the response, and on a failed one the failure's cause |
| Stubs.SendAndAwait | rpc-netty/src/main/java/com/github/liyue2008/rpc/transport/netty/NettyTransport.java:48-78 | through `send` and `get()`, no free permit reaches the caller as a RuntimeException around the TimeoutException, and a write error or async write failure as one around its cause; a successful write leaves the caller waiting |
| Stubs.Reply | rpc-netty/src/main/java/com/github/liyue2008/rpc/client/stubs/AbstractStub.java:83-95 | the result is the payload exactly for a SUCCESS response; every failure is a RuntimeException, wrapping the future's cause or an exception carrying the server's error text |
| Stubs.Stub.constructor | rpc-netty/src/main/java/com/github/liyue2008/rpc/client/DynamicStubFactory.java:105 | a new stub has no transport |
| Stubs.Stub.SetTransport | rpc-netty/src/main/java/com/github/liyue2008/rpc/client/stubs/AbstractStub.java:98-101 | sets the transport and nothing else |
| Stubs.Stub.InvokeRemote | rpc-netty/src/main/java/com/github/liyue2008/rpc/client/stubs/AbstractStub.java:61-96 | draws one id; a request that does not serialize fails unwrapped; a null transport fails wrapped; otherwise the reply to the request command carrying that id and the serialized request |
| Stubs.Stub.Call | rpc-netty/src/main/java/com/github/liyue2008/rpc/client/DynamicStubFactory.java:46-55 | the generated method: serialize the argument, invokeRemote with the stub's interface and method, parse the result as a String; an id is drawn only when the argument serializes |
| StubFactory.FormatDefined | rpc-netty/src/main/java/com/github/liyue2008/rpc/client/DynamicStubFactory.java:97 | formatting succeeds iff there is an argument for every `%s` |
| StubFactory.FormatIgnoresSurplus | rpc-netty/src/main/java/com/github/liyue2008/rpc/client/DynamicStubFactory.java:97 | arguments beyond the last hole do not change the text |
| StubFactory.FillFiveHoles | rpc-netty/src/main/java/com/github/liyue2008/rpc/client/DynamicStubFactory.java:44-51 | five arguments fill five holes in order, between the literal runs |
| StubFactory.FillTemplate | rpc-netty/src/main/java/com/github/liyue2008/rpc/client/DynamicStubFactory.java:40-57 | the stub template filled with five arguments is its literal text with the arguments at the five holes, in order |
| StubFactory.StubNameIgnoresPackage | rpc-netty/src/main/java/com/github/liyue2008/rpc/client/DynamicStubFactory.java:89-93 | two interfaces get the same stub simple name, and the same stub class name, iff their simple names are equal: the interface's package is dropped, so same-named interfaces in different packages collide |
| StubFactory.StubSource | rpc-netty/src/main/java/com/github/liyue2008/rpc/client/DynamicStubFactory.java:97 | the source names the stub class, implements the interface, and passes the interface name and method name, each appearing twice |
| StubFactory.CreateStub | rpc-netty/src/main/java/com/github/liyue2008/rpc/client/DynamicStubFactory.java:85-113 | no method gives a RuntimeException around an index exception; a load failure is rethrown wrapped; otherwise a fresh stub for the first method, with the generated name and source and the given transport |
| AccessPoint.NameService.Connect | rpc-api/src/main/java/com/github/liyue2008/rpc/NameService.java:37 | records one connection to the URI |
| AccessPoint.FirstSupporting | rpc-api/src/main/java/com/github/liyue2008/rpc/RpcAccessPoint.java:69-76 | the index found supports the scheme and no earlier service does; none is found iff no service supports it |
| AccessPoint.GetNameService | rpc-api/src/main/java/com/github/liyue2008/rpc/RpcAccessPoint.java:58-77 | returns the first service supporting the URI's scheme, or null; connects exactly the returned service to the URI, once, and no other |
| EndToEnd.Delivered | rpc-netty/src/main/java/com/github/liyue2008/rpc/client/stubs/AbstractStub.java:73-75 | the command a stub sends decodes, on the server, to the RpcRequest it built, whose argument decodes to the call's argument |
| EndToEnd.CallReturnsResult | rpc-netty/src/main/java/com/github/liyue2008/rpc/server/RpcRequestHandler.java:57-63 | a stub call whose provider method returns r returns r to the caller |
| EndToEnd.CallWithoutProvider | rpc-netty/src/main/java/com/github/liyue2008/rpc/server/RpcRequestHandler.java:66-67 | a call to an unregistered interface fails with "No provider!" |
| EndToEnd.CallToThrowingMethod | rpc-netty/src/main/java/com/github/liyue2008/rpc/server/RpcRequestHandler.java:68-72 | a call to a throwing method fails at the caller; the response's error is null, so the thrown message is lost (with the response passed as a value, the caller's exception carries null) |
| EndToEnd.CallToMissingMethod | rpc-netty/src/main/java/com/github/liyue2008/rpc/server/RpcRequestHandler.java:60 | a call to a method the provider lacks fails with the message of the lookup's exception |

## Left out

- Concurrency: the scheduled sweep thread, `close()`, `ConcurrentHashMap` and `synchronized`. Each operation is one atomic step, and the sweep runs when `RemoveTimeoutFutures` is called.
- `InFlight.InFlightRequests.Put`: the bounded 10-second wait of `tryAcquire` is not modelled. A permit is either free at the call or the put fails. An interrupt during the wait is also not modelled.
- `System.nanoTime()` and its `long` overflow: time is an unbounded `now` argument.
- Netty I/O: the write, the listener callback and the receive path that completes futures with responses. The write's outcome is an argument, and the receive path is the `exchange` argument of the stub.
- The response header's wire encoding and frame decoding: commands are values.
- Concrete serializers: a serializer is an abstract (tag, class, encode, decode) record. Its `size(entry)` is taken to be the length of its encoding, so a serializer whose size disagrees with what it writes, or is negative, is not modelled.
- EndToEnd.CallToThrowingMethod: its client half rests on responses being passed as values. The response header's wire encoding is not part of this model, so what a null error becomes after encoding and decoding is not captured.
- EndToEnd.ServerExchange: when `handle` throws, the source sends no response and the caller's future is never completed. The model instead completes the future with the exception. None of the end-to-end lemmas uses that case.
- A serializer whose `size` or `serialize` throws is not modelled: encoding is a total function. Inside the handler's `try` such an exception would give UNKNOWN_ERROR.
- Null arguments: a null entry, null provider or null URI scheme collection is not modelled. A URI without a scheme matches no service.
- The class hierarchy: assignability knows only the class itself and `java.lang.Object`.
- Interface names: `getName()` and `getCanonicalName()` are taken to agree, which holds for top-level interfaces but not for nested ones.
- `String.format`: only `%s` conversions are modelled. The template is held already split at its five `%s` holes.
- The Java compiler, class loader and `newInstance`: their failure is the `loadFailure` argument of `StubFactory.CreateStub`.
- Reflection: it is a map from (provider, method name) to the method's behaviour on its String argument. Only methods taking one String are found, as `getMethod(name, String.class)` does.
- JVM-made exception messages (a null dereference, an index out of bounds, a missing method): their text is the `jvm` argument.
- `RequestIdSupport` is not part of this model. The counter is modelled as starting at 0 and wrapping as Java `int`.
- The numeric values of `Code` are not part of this model. SUCCESS is taken to be 0 and the others are distinct non-zero values.
- `ServiceSupport.loadAll`: the discovered serializers and name services are sequences given in iteration order.
- The name services' `registerService` and `lookupService`: interface methods with no behaviour in the core.
- `Transport.NettyTransport.Send`: when no permit is free, the catch removes whatever entry holds the same request id and releases its permit. This matters only for duplicate ids after the counter wraps. The model states this behaviour but proves balance only for a new id.

## Findings

| source | as written | input that shows it | evidently intended | confidence | as-written member | corrected member |
|---|---|---|---|---|---|---|
| rpc-netty/src/main/java/com/github/liyue2008/rpc/transport/InFlightRequests.java:65-74 | the sweep removes an expired entry and releases its permit but never completes its future, so a caller waiting on it is never woken and a late response no longer finds it | one request put at time 0 that gets no response, then a sweep at 10 s + 1 ns | the comment above the sweep (lines 59-63) says an expired future is to be treated as failed, ended and removed: fail it with a TimeoutException, then remove it | high; not executed | InFlight.SweepLeavesFuturePending | InFlight.SweepFailsFuture |
