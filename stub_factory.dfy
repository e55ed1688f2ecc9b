/**
 * The dynamic stub factory: derive the stub class's names from the service
 * interface, fill the source template, and hand back a stub bound to the
 * transport. Compiling and loading the source is foreign; its outcome is an
 * input.
 */
module StubFactory {
  import opened Wrappers
  import opened Lang
  import opened Transport
  import opened Stubs

  const STUB_PACKAGE: string := "com.github.liyue2008.rpc.client.stubs"

  // The literal text of the template, between its five `%s` holes.
  const SEGMENT_0: string :=
    "package com.github.liyue2008.rpc.client.stubs;\n" +
    "import com.github.liyue2008.rpc.serialize.SerializeSupport;\n" +
    "\n" +
    "public class "
  const SEGMENT_1: string := " extends AbstractStub implements "
  const SEGMENT_2: string :=
    " {\n" +
    "    @Override\n" +
    "    public String "
  const SEGMENT_3: string :=
    "(String arg) {\n" +
    "        return SerializeSupport.parse(\n" +
    "                invokeRemote(\n" +
    "                        new RpcRequest(\n" +
    "                                \""
  const SEGMENT_4: string :=
    "\",\n" +
    "                                \""
  const SEGMENT_5: string :=
    "\",\n" +
    "                                SerializeSupport.serialize(arg)\n" +
    "                        )\n" +
    "                )\n" +
    "        );\n" +
    "    }\n" +
    "}"

  /** A format string, split at its conversions: literal text, or a `%s` hole. */
  datatype Piece = Text(text: string) | Hole

  /** `STUB_SOURCE_TEMPLATE`, split at its five `%s` conversions. */
  const STUB_SOURCE_TEMPLATE: seq<Piece> :=
    FiveHoles(SEGMENT_0, SEGMENT_1, SEGMENT_2, SEGMENT_3, SEGMENT_4, SEGMENT_5)

  /** A format with five holes, between the six given runs of text. */
  function FiveHoles(s0: string, s1: string, s2: string, s3: string, s4: string, s5: string): (fmt: seq<Piece>)
  {
    [Text(s0), Hole, Text(s1), Hole, Text(s2), Hole, Text(s3), Hole, Text(s4), Hole, Text(s5)]
  }

  /** The number of `%s` holes in a format. */
  function Holes(fmt: seq<Piece>): (n: nat)
  {
    if fmt == [] then 0 else (if fmt[0].Hole? then 1 else 0) + Holes(fmt[1..])
  }

  function Prepend(prefix: string, s: Option<string>): (r: Option<string>)
  {
    match s
    case None => None
    case Some(text) => Some(prefix + text)
  }

  /**
   * `String.format(fmt, args...)` for a format whose only conversion is `%s`:
   * literal text is copied, each hole takes the next argument, a missing
   * argument fails (MissingFormatArgumentException) and surplus arguments are
   * ignored.
   */
  function Format(fmt: seq<Piece>, args: seq<string>): (text: Option<string>)
  {
    if fmt == [] then Some("")
    else match fmt[0]
      case Text(text) => Prepend(text, Format(fmt[1..], args))
      case Hole =>
        if args == [] then None else Prepend(args[0], Format(fmt[1..], args[1..]))
  }

  /** Formatting succeeds exactly when there is an argument for every hole. */
  lemma {:induction false} FormatDefined(fmt: seq<Piece>, args: seq<string>)
    ensures Format(fmt, args).Some? <==> Holes(fmt) <= |args|
  {
    if fmt != [] {
      match fmt[0]
      case Text(_) => FormatDefined(fmt[1..], args);
      case Hole =>
        if args != [] {
          FormatDefined(fmt[1..], args[1..]);
        }
    }
  }

  /** Arguments beyond the holes do not change the text. */
  lemma {:induction false} FormatIgnoresSurplus(fmt: seq<Piece>, args: seq<string>, extra: seq<string>)
    requires Holes(fmt) <= |args|
    ensures Format(fmt, args + extra) == Format(fmt, args)
  {
    if fmt != [] {
      match fmt[0]
      case Text(_) => FormatIgnoresSurplus(fmt[1..], args, extra);
      case Hole =>
        assert (args + extra)[1..] == args[1..] + extra;
        FormatIgnoresSurplus(fmt[1..], args[1..], extra);
    }
  }

  lemma FormatText(text: string, rest: seq<Piece>, args: seq<string>)
    ensures Format([Text(text)] + rest, args) == Prepend(text, Format(rest, args))
  {
    assert ([Text(text)] + rest)[1..] == rest;
  }

  lemma FormatHole(rest: seq<Piece>, arg: string, args: seq<string>)
    ensures Format([Hole] + rest, [arg] + args) == Prepend(arg, Format(rest, args))
  {
    assert ([Hole] + rest)[1..] == rest;
    assert ([arg] + args)[1..] == args;
  }

  lemma FiveHolesNested(s0: string, s1: string, s2: string, s3: string, s4: string, s5: string)
    ensures FiveHoles(s0, s1, s2, s3, s4, s5) ==
      [Text(s0)] + ([Hole] + ([Text(s1)] + ([Hole] + ([Text(s2)] + ([Hole] +
      ([Text(s3)] + ([Hole] + ([Text(s4)] + ([Hole] + [Text(s5)])))))))))
  {
  }

  lemma FlattenTen(x0: string, x1: string, x2: string, x3: string, x4: string, x5: string,
                   x6: string, x7: string, x8: string, x9: string, x10: string)
    ensures x0 + (x1 + (x2 + (x3 + (x4 + (x5 + (x6 + (x7 + (x8 + (x9 + x10))))))))) ==
      x0 + x1 + x2 + x3 + x4 + x5 + x6 + x7 + x8 + x9 + x10
  {
  }

  /** Filling five holes with five arguments interleaves them with the text. */
  lemma FillFiveHoles(s0: string, s1: string, s2: string, s3: string, s4: string, s5: string,
                      a: string, b: string, c: string, d: string, e: string)
    ensures Format(FiveHoles(s0, s1, s2, s3, s4, s5), [a, b, c, d, e]) ==
      Some(s0 + a + s1 + b + s2 + c + s3 + d + s4 + e + s5)
  {
    var t := [Text(s5)];
    var r := s5;
    FormatText(s5, [], []);
    assert s5 + "" == s5;
    assert Format(t, []) == Some(r);
    FormatHole(t, e, []);
    assert [e] + [] == [e];
    t, r := [Hole] + t, e + r;
    assert Format(t, [e]) == Some(r);
    FormatText(s4, t, [e]);
    t, r := [Text(s4)] + t, s4 + r;
    assert Format(t, [e]) == Some(r);
    FormatHole(t, d, [e]);
    t, r := [Hole] + t, d + r;
    assert Format(t, [d, e]) == Some(r);
    FormatText(s3, t, [d, e]);
    t, r := [Text(s3)] + t, s3 + r;
    assert Format(t, [d, e]) == Some(r);
    FormatHole(t, c, [d, e]);
    t, r := [Hole] + t, c + r;
    assert Format(t, [c, d, e]) == Some(r);
    FormatText(s2, t, [c, d, e]);
    t, r := [Text(s2)] + t, s2 + r;
    assert Format(t, [c, d, e]) == Some(r);
    FormatHole(t, b, [c, d, e]);
    t, r := [Hole] + t, b + r;
    assert Format(t, [b, c, d, e]) == Some(r);
    FormatText(s1, t, [b, c, d, e]);
    t, r := [Text(s1)] + t, s1 + r;
    assert Format(t, [b, c, d, e]) == Some(r);
    FormatHole(t, a, [b, c, d, e]);
    t, r := [Hole] + t, a + r;
    assert Format(t, [a, b, c, d, e]) == Some(r);
    FormatText(s0, t, [a, b, c, d, e]);
    t, r := [Text(s0)] + t, s0 + r;
    FiveHolesNested(s0, s1, s2, s3, s4, s5);
    FlattenTen(s0, a, s1, b, s2, c, s3, d, s4, e, s5);
  }

  /**
   * Filling the stub template with (a, b, c, d, e) puts each argument into its
   * hole, in order, and keeps all the literal text.
   */
  lemma FillTemplate(a: string, b: string, c: string, d: string, e: string)
    ensures Format(STUB_SOURCE_TEMPLATE, [a, b, c, d, e]) ==
      Some(SEGMENT_0 + a + SEGMENT_1 + b + SEGMENT_2 + c + SEGMENT_3 + d + SEGMENT_4 + e + SEGMENT_5)
  {
    FillFiveHoles(SEGMENT_0, SEGMENT_1, SEGMENT_2, SEGMENT_3, SEGMENT_4, SEGMENT_5, a, b, c, d, e);
  }

  /** The generated class's simple name: the interface's simple name + "Stub". */
  function StubSimpleName(service: ServiceClass): (name: string)
  {
    service.simpleName + "Stub"
  }

  /** The generated class's full name, in the stubs package. */
  function StubFullName(service: ServiceClass): (name: string)
  {
    STUB_PACKAGE + "." + StubSimpleName(service)
  }

  /**
   * The stub's class name depends only on the interface's simple name: two
   * interfaces with the same simple name in different packages get the same
   * stub class name, and different simple names never share a name.
   */
  lemma StubNameIgnoresPackage(s1: ServiceClass, s2: ServiceClass)
    ensures StubSimpleName(s1) == StubSimpleName(s2) <==> s1.simpleName == s2.simpleName
    ensures StubFullName(s1) == StubFullName(s2) <==> s1.simpleName == s2.simpleName
  {
    var n1, n2 := StubFullName(s1), StubFullName(s2);
    var p := |STUB_PACKAGE + "."|;
    if n1 == n2 {
      assert n1[p..] == StubSimpleName(s1);
      assert n2[p..] == StubSimpleName(s2);
    }
    if StubSimpleName(s1) == StubSimpleName(s2) {
      var k := |s1.simpleName|;
      assert StubSimpleName(s1)[..k] == s1.simpleName;
      assert StubSimpleName(s2)[..|s2.simpleName|] == s2.simpleName;
    }
  }

  /**
   * The generated source: fill the template with (stub simple name, interface
   * name, method name, interface name, method name).
   */
  function StubSource(service: ServiceClass, methodName: string): (source: string)
    ensures source ==
      SEGMENT_0 + StubSimpleName(service) + SEGMENT_1 + service.Name() + SEGMENT_2 + methodName +
      SEGMENT_3 + service.Name() + SEGMENT_4 + methodName + SEGMENT_5
  {
    FillTemplate(StubSimpleName(service), service.Name(), methodName, service.Name(), methodName);
    Format(STUB_SOURCE_TEMPLATE, [StubSimpleName(service), service.Name(), methodName, service.Name(), methodName]).value
  }

  /**
   * `createStub(transport, serviceClass)`: the stubbed method is the
   * interface's first method; a failure anywhere (no method at all, the
   * source does not compile or load) is rethrown wrapped in a
   * RuntimeException. `loadFailure` is what compiling and loading throw, if
   * anything.
   */
  method CreateStub(transport: NettyTransport?, service: ServiceClass, loadFailure: Option<Throwable>)
    returns (r: Result<Stub, Throwable>)
    ensures service.methods == [] ==> r == Err(Runtime(ArrayIndexOutOfBounds(0)))
    ensures service.methods != [] && loadFailure.Some? ==> r == Err(Runtime(loadFailure.value))
    ensures r.Ok? <==> service.methods != [] && loadFailure.None?
    ensures r.Ok? ==>
      && fresh(r.value)
      && r.value.transport == transport
      && r.value.className == StubFullName(service)
      && r.value.interfaceName == service.Name()
      && r.value.methodName == service.methods[0]
      && r.value.source == StubSource(service, service.methods[0])
  {
    var stubSimpleName := StubSimpleName(service);
    var classFullName := service.Name();
    var stubFullName := STUB_PACKAGE + "." + stubSimpleName;
    if service.methods == [] {
      return Err(Runtime(ArrayIndexOutOfBounds(0)));
    }
    var methodName := service.methods[0];
    var source := StubSource(service, methodName);
    if loadFailure.Some? {
      return Err(Runtime(loadFailure.value));
    }
    var stub := new Stub(stubFullName, source, classFullName, methodName);
    stub.SetTransport(transport);
    return Ok(stub);
  }
}
