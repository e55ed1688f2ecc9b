/**
 * The type-tagged serializer registry. Every serializer plugin owns one tag
 * byte and one class; the registry maps classes to serializers and tags to
 * classes. A serialized object is its serializer's tag followed by the
 * serializer's own encoding of the object.
 */
module Serialization {
  import opened Wrappers
  import opened Lang

  /**
   * A serializer plugin: its tag (`type()`), the class it serializes
   * (`getSerializeClass()`), what it writes for an object and what it reads
   * back from a slice of bytes. Its `size(entry)` is the length of what it
   * writes, `|encode(entry)|`.
   */
  datatype Serializer = Serializer(
    tag: Int8,
    cls: ClassName,
    encode: Value -> seq<Int8>,
    decode: seq<Int8> -> Result<Value, Throwable>)

  /** The two registry maps: class -> serializer (`serializerMap`) and tag -> class (`typeMap`). */
  datatype Registry = Registry(serializerMap: map<ClassName, Serializer>, typeMap: map<Int8, ClassName>)

  /** Every class a tag names has a serializer, so the lookup on parse never yields null. */
  ghost predicate Consistent(t: Registry)
  {
    forall tag :: tag in t.typeMap ==> t.typeMap[tag] in t.serializerMap
  }

  /** The registry after `registerType(tag, cls, s)`. */
  function Register(t: Registry, tag: Int8, cls: ClassName, s: Serializer): (r: Registry)
  {
    Registry(t.serializerMap[cls := s], t.typeMap[tag := cls])
  }

  /** The registry after registering the plugins in order, as the static initializer does. */
  function Registered(plugins: seq<Serializer>): (r: Registry)
    decreases |plugins|
  {
    if plugins == [] then Registry(map[], map[])
    else
      var s := plugins[|plugins| - 1];
      Register(Registered(plugins[..|plugins| - 1]), s.tag, s.cls, s)
  }

  /** Registering keeps the registry consistent. */
  lemma {:induction false} RegisteredIsConsistent(plugins: seq<Serializer>)
    ensures Consistent(Registered(plugins))
  {
    if plugins != [] {
      RegisteredIsConsistent(plugins[..|plugins| - 1]);
    }
  }

  /**
   * Last write wins on classes: a class is registered iff some plugin serializes
   * it, and then its serializer is the LAST such plugin in the list.
   */
  lemma {:induction false} RegisteredClass(plugins: seq<Serializer>, cls: ClassName)
    ensures cls in Registered(plugins).serializerMap <==> exists i :: 0 <= i < |plugins| && plugins[i].cls == cls
    ensures cls in Registered(plugins).serializerMap ==>
      exists i :: 0 <= i < |plugins| && plugins[i].cls == cls && Registered(plugins).serializerMap[cls] == plugins[i] &&
        forall j :: i < j < |plugins| ==> plugins[j].cls != cls
    decreases |plugins|
  {
    if plugins != [] {
      var n := |plugins| - 1;
      var init := plugins[..n];
      RegisteredClass(init, cls);
      if plugins[n].cls != cls {
        if cls in Registered(plugins).serializerMap {
          var i :| 0 <= i < |init| && init[i].cls == cls && Registered(init).serializerMap[cls] == init[i] &&
            forall j :: i < j < |init| ==> init[j].cls != cls;
          assert plugins[i] == init[i];
        } else {
          forall i | 0 <= i < |plugins| ensures plugins[i].cls != cls {
            if i < n { assert plugins[i] == init[i]; }
          }
        }
      }
    }
  }

  /**
   * Last write wins on tags: a tag is registered iff some plugin owns it, and
   * then it names the class of the LAST plugin in the list that owns it.
   */
  lemma {:induction false} RegisteredTag(plugins: seq<Serializer>, tag: Int8)
    ensures tag in Registered(plugins).typeMap <==> exists i :: 0 <= i < |plugins| && plugins[i].tag == tag
    ensures tag in Registered(plugins).typeMap ==>
      exists i :: 0 <= i < |plugins| && plugins[i].tag == tag && Registered(plugins).typeMap[tag] == plugins[i].cls &&
        forall j :: i < j < |plugins| ==> plugins[j].tag != tag
    decreases |plugins|
  {
    if plugins != [] {
      var n := |plugins| - 1;
      var init := plugins[..n];
      RegisteredTag(init, tag);
      if plugins[n].tag != tag {
        if tag in Registered(plugins).typeMap {
          var i :| 0 <= i < |init| && init[i].tag == tag && Registered(init).typeMap[tag] == init[i].cls &&
            forall j :: i < j < |init| ==> init[j].tag != tag;
          assert plugins[i] == init[i];
        } else {
          forall i | 0 <= i < |plugins| ensures plugins[i].tag != tag {
            if i < n { assert plugins[i] == init[i]; }
          }
        }
      }
    }
  }

  /** Plugins with pairwise distinct tags and pairwise distinct classes. */
  ghost predicate DistinctPlugins(plugins: seq<Serializer>)
  {
    forall i, j :: 0 <= i < j < |plugins| ==> plugins[i].tag != plugins[j].tag && plugins[i].cls != plugins[j].cls
  }

  /** With distinct plugins nothing is overwritten: each plugin is found under its class, and its tag leads back to its class. */
  lemma DistinctPluginsAllRegistered(plugins: seq<Serializer>, k: nat)
    requires DistinctPlugins(plugins)
    requires k < |plugins|
    ensures plugins[k].cls in Registered(plugins).serializerMap
    ensures Registered(plugins).serializerMap[plugins[k].cls] == plugins[k]
    ensures plugins[k].tag in Registered(plugins).typeMap
    ensures Registered(plugins).typeMap[plugins[k].tag] == plugins[k].cls
  {
    var t := Registered(plugins);
    RegisteredClass(plugins, plugins[k].cls);
    var i :| 0 <= i < |plugins| && plugins[i].cls == plugins[k].cls && t.serializerMap[plugins[k].cls] == plugins[i] &&
      forall j :: i < j < |plugins| ==> plugins[j].cls != plugins[k].cls;
    assert i == k;
    RegisteredTag(plugins, plugins[k].tag);
    var i' :| 0 <= i' < |plugins| && plugins[i'].tag == plugins[k].tag && t.typeMap[plugins[k].tag] == plugins[i'].cls &&
      forall j :: i' < j < |plugins| ==> plugins[j].tag != plugins[k].tag;
    assert i' == k;
  }

  /** `parseEntryType(buffer)`: the first byte, or the exception reading it raises. */
  function ParseEntryType(buffer: seq<Int8>): (r: Result<Int8, Throwable>)
    ensures r.Ok? <==> |buffer| > 0
    ensures r.Ok? ==> r.value == buffer[0]
  {
    if |buffer| == 0 then Err(ArrayIndexOutOfBounds(0)) else Ok(buffer[0])
  }

  /**
   * `parse(buffer, offset, length, eClass)`: decode `length` bytes from `offset`
   * with the serializer registered for `cls`, then check the decoded object's
   * class. A serializer reading outside the buffer raises an index exception.
   */
  function ParseAs(t: Registry, buffer: seq<Int8>, offset: int, length: int, cls: ClassName): (r: Result<Value, Throwable>)
    ensures cls !in t.serializerMap ==> r == Err(NullReference)
    ensures r.Ok? ==> IsAssignableFrom(cls, ClassOf(r.value))
    ensures cls in t.serializerMap && 0 <= offset <= offset + length <= |buffer| ==>
      match t.serializerMap[cls].decode(buffer[offset..offset + length])
      case Err(e) => r == Err(e)
      case Ok(v) => r == if IsAssignableFrom(cls, ClassOf(v)) then Ok(v) else Err(TypeMismatch)
  {
    if cls !in t.serializerMap then Err(NullReference)
    else if !(0 <= offset <= offset + length <= |buffer|) then Err(ArrayIndexOutOfBounds(offset + length))
    else
      match t.serializerMap[cls].decode(buffer[offset..offset + length])
      case Err(e) => Err(e)
      case Ok(entry) => if IsAssignableFrom(cls, ClassOf(entry)) then Ok(entry) else Err(TypeMismatch)
  }

  /** `parse(buffer, offset, length)`: read the tag, find its class, decode the bytes after the tag. */
  function ParseAt(t: Registry, buffer: seq<Int8>, offset: int, length: int): (r: Result<Value, Throwable>)
  {
    match ParseEntryType(buffer)
    case Err(e) => Err(e)
    case Ok(tag) =>
      if tag !in t.typeMap then Err(UnknownEntryType(tag))
      else ParseAs(t, buffer, offset + 1, length - 1, t.typeMap[tag])
  }

  /** `parse(buffer)`: the public entry point, over the whole buffer. */
  function Parse(t: Registry, buffer: seq<Int8>): (r: Result<Value, Throwable>)
    ensures |buffer| == 0 ==> r == Err(ArrayIndexOutOfBounds(0))
    ensures |buffer| > 0 && buffer[0] !in t.typeMap ==> r == Err(UnknownEntryType(buffer[0]))
    ensures |buffer| > 0 && buffer[0] in t.typeMap ==> r == ParseAs(t, buffer, 1, |buffer| - 1, t.typeMap[buffer[0]])
    ensures r.Ok? ==> |buffer| > 0 && buffer[0] in t.typeMap && IsAssignableFrom(t.typeMap[buffer[0]], ClassOf(r.value))
  {
    ParseAt(t, buffer, 0, |buffer|)
  }

  /**
   * In a consistent registry a known tag always reaches its serializer: parse
   * returns what the serializer decodes from the bytes after the tag, or
   * "Type mismatch!" when the decoded object is not of the tag's class.
   */
  lemma ParseKnownTag(t: Registry, buffer: seq<Int8>)
    requires Consistent(t)
    requires |buffer| > 0 && buffer[0] in t.typeMap
    ensures
      var cls := t.typeMap[buffer[0]];
      Parse(t, buffer) ==
        match t.serializerMap[cls].decode(buffer[1..])
        case Err(e) => Err(e)
        case Ok(v) => if IsAssignableFrom(cls, ClassOf(v)) then Ok(v) else Err(TypeMismatch)
  {
    assert t.typeMap[buffer[0]] in t.serializerMap;
    assert buffer[1..1 + (|buffer| - 1)] == buffer[1..];
  }

  /** `serialize(entry)`, as the bytes it returns or the exception it throws. */
  function Serialized(t: Registry, entry: Value): (r: Result<seq<Int8>, Throwable>)
    ensures r.Err? <==> ClassOf(entry) !in t.serializerMap
    ensures r.Err? ==> r.error == UnknownEntryClass(ClassOf(entry))
    ensures r.Ok? ==> |r.value| == |t.serializerMap[ClassOf(entry)].encode(entry)| + 1
    ensures r.Ok? ==> r.value[0] == t.serializerMap[ClassOf(entry)].tag
    ensures r.Ok? ==> r.value[1..] == t.serializerMap[ClassOf(entry)].encode(entry)
  {
    if ClassOf(entry) !in t.serializerMap then Err(UnknownEntryClass(ClassOf(entry)))
    else
      var s := t.serializerMap[ClassOf(entry)];
      Ok([s.tag] + s.encode(entry))
  }

  /**
   * The registry round-trips `v` when the serializer found for v's class
   * reads back what it writes and its tag leads back to v's class.
   */
  ghost predicate RoundTrips(t: Registry, v: Value)
  {
    && ClassOf(v) in t.serializerMap
    && var s := t.serializerMap[ClassOf(v)];
    && s.tag in t.typeMap
    && t.typeMap[s.tag] == ClassOf(v)
    && s.decode(s.encode(v)) == Ok(v)
  }

  /** parse(serialize(v)) == v. */
  lemma RoundTrip(t: Registry, v: Value)
    requires RoundTrips(t, v)
    ensures Serialized(t, v).Ok?
    ensures Parse(t, Serialized(t, v).value) == Ok(v)
  {
    var bytes := Serialized(t, v).value;
    assert bytes[1..1 + (|bytes| - 1)] == bytes[1..];
  }

  /**
   * A registry built from plugins with distinct tags and classes round-trips
   * every object whose plugin reads back what it writes.
   */
  lemma RegisteredRoundTrip(plugins: seq<Serializer>, k: nat, v: Value)
    requires DistinctPlugins(plugins)
    requires k < |plugins| && plugins[k].cls == ClassOf(v)
    requires plugins[k].decode(plugins[k].encode(v)) == Ok(v)
    ensures Serialized(Registered(plugins), v).Ok?
    ensures Parse(Registered(plugins), Serialized(Registered(plugins), v).value) == Ok(v)
  {
    DistinctPluginsAllRegistered(plugins, k);
    RoundTrip(Registered(plugins), v);
  }

  /** The process-wide registry (`SerializeSupport`'s static maps). */
  class SerializeSupport {
    var serializerMap: map<ClassName, Serializer>
    var typeMap: map<Int8, ClassName>

    function State(): Registry
      reads this
    {
      Registry(serializerMap, typeMap)
    }

    /** The static initializer: register every plugin found, in order. */
    constructor (plugins: seq<Serializer>)
      ensures State() == Registered(plugins)
    {
      serializerMap := map[];
      typeMap := map[];
      new;
      var i := 0;
      while i < |plugins|
        invariant 0 <= i <= |plugins|
        invariant State() == Registered(plugins[..i])
      {
        var s := plugins[i];
        RegisterType(s.tag, s.cls, s);
        assert plugins[..i + 1][..i] == plugins[..i];
        i := i + 1;
      }
      assert plugins[..|plugins|] == plugins;
    }

    /** `registerType`: overwrite both maps at the given keys, leaving every other entry as it was. */
    method RegisterType(tag: Int8, cls: ClassName, s: Serializer)
      modifies this
      ensures serializerMap == old(serializerMap)[cls := s]
      ensures typeMap == old(typeMap)[tag := cls]
      ensures State() == Register(old(State()), tag, cls, s)
    {
      serializerMap := serializerMap[cls := s];
      typeMap := typeMap[tag := cls];
    }

    /**
     * `serialize(entry)`: allocate size + 1 bytes, write the tag at 0 and let
     * the serializer write its encoding from offset 1.
     */
    method Serialize(entry: Value) returns (r: Result<array<Int8>, Throwable>)
      ensures r.Err? ==> Serialized(State(), entry) == Err(r.error)
      ensures r.Ok? ==> Serialized(State(), entry) == Ok(r.value[..])
      ensures r.Ok? ==> fresh(r.value)
    {
      if ClassOf(entry) !in serializerMap {
        return Err(UnknownEntryClass(ClassOf(entry)));
      }
      var serializer := serializerMap[ClassOf(entry)];
      var encoding := serializer.encode(entry);
      var bytes := new Int8[|encoding| + 1];
      bytes[0] := serializer.tag;
      // serializer.serialize(entry, bytes, 1, bytes.Length - 1)
      var i := 0;
      while i < |encoding|
        invariant 0 <= i <= |encoding|
        invariant bytes[0] == serializer.tag
        invariant bytes[1..i + 1] == encoding[..i]
      {
        bytes[i + 1] := encoding[i];
        i := i + 1;
      }
      assert bytes[1..] == encoding by {
        assert bytes[1..i + 1] == bytes[1..];
        assert encoding[..i] == encoding;
      }
      assert bytes[..] == [serializer.tag] + bytes[1..];
      return Ok(bytes);
    }
  }
}
