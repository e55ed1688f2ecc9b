/**
 * The parts of the Java runtime that the RPC core depends on: fixed-width
 * integers, class names, the objects that travel through the serializer,
 * service interface descriptions, and the exceptions the core throws or catches.
 */
module Lang {
  import opened Wrappers

  /** Java `int`. */
  type Int32 = x: int | -0x8000_0000 <= x < 0x8000_0000

  /** Java `byte` (signed). */
  type Int8 = x: int | -0x80 <= x < 0x80

  /** Two's-complement wrap-around of Java `int` arithmetic. */
  function Wrap32(x: int): (r: Int32)
    ensures -0x8000_0000 <= x < 0x8000_0000 ==> r == x
    ensures (r - x) % 0x1_0000_0000 == 0
  {
    (x + 0x8000_0000) % 0x1_0000_0000 - 0x8000_0000
  }

  /** A fully qualified Java class name, as `Class.getName()` returns it. */
  type ClassName = string

  const OBJECT_CLASS: ClassName := "java.lang.Object"
  const STRING_CLASS: ClassName := "java.lang.String"
  const RPC_REQUEST_CLASS: ClassName := "com.github.liyue2008.rpc.client.stubs.RpcRequest"

  /** The payload of an RPC request command: which method of which service, and its encoded argument. */
  datatype RpcRequest = RpcRequest(interfaceName: string, methodName: string, serializedArguments: seq<Int8>)

  /**
   * The non-null objects handed to the serializer: strings (arguments and
   * results of service methods), RPC requests, and objects of any other class.
   */
  datatype Value =
    | StringValue(text: string)
    | RequestValue(request: RpcRequest)
    | OtherValue(cls: ClassName, data: seq<int>)

  /** `entry.getClass()`. */
  function ClassOf(v: Value): (cls: ClassName)
  {
    match v
    case StringValue(_) => STRING_CLASS
    case RequestValue(_) => RPC_REQUEST_CLASS
    case OtherValue(cls, _) => cls
  }

  /**
   * `target.isAssignableFrom(actual)`, for the class hierarchy the model knows:
   * a class is assignable to itself and to `java.lang.Object`.
   */
  predicate IsAssignableFrom(target: ClassName, actual: ClassName)
  {
    target == actual || target == OBJECT_CLASS
  }

  /**
   * A top-level service interface: its package, its simple name and the names
   * of its methods in the order `Class.getMethods()` reports them.
   */
  datatype ServiceClass = ServiceClass(packageName: string, simpleName: string, methods: seq<string>)
  {
    /** `getName()`; for a top-level interface it equals `getCanonicalName()`. */
    function Name(): string
    {
      if packageName == "" then simpleName else packageName + "." + simpleName
    }
  }

  /** The throwables the core raises, catches or passes on. */
  datatype Throwable =
    | ArrayIndexOutOfBounds(index: int)
    | NullReference
    | ClassCast(actual: ClassName, target: ClassName)
    | NoSuchMethod(methodName: string)
    | UnknownEntryType(tag: Int8)          // SerializeException, unknown tag on parse
    | UnknownEntryClass(cls: ClassName)    // SerializeException, unknown class on serialize
    | TypeMismatch                         // SerializeException, decoded object of the wrong class
    | InvocationTarget(cause: Throwable)   // what reflective invocation wraps a thrown exception in
    | Timeout                              // java.util.concurrent.TimeoutException()
    | Interrupted
    | Plain(message: Option<string>)       // new Exception(message)
    | Runtime(cause: Throwable)            // new RuntimeException(cause)
    | Foreign(className: ClassName, message: Option<string>)  // thrown by code outside the core

  /** The text the JVM itself puts into the exceptions it raises. */
  type JvmMessages = Throwable -> Option<string>

  /** `t.getMessage()`; a `None` result is Java's null. */
  function Message(t: Throwable, jvm: JvmMessages): (message: Option<string>)
  {
    match t
    case UnknownEntryType(tag) => Some("Unknown entry type: " + Decimal(tag) + "!")
    case UnknownEntryClass(cls) => Some("Unknown entry class type: class " + cls)
    case TypeMismatch => Some("Type mismatch!")
    case InvocationTarget(_) => None
    case Timeout => None
    case Plain(message) => message
    case Foreign(_, message) => message
    case _ => jvm(t)
  }

  predicate IsDigit(c: char)
  {
    '0' <= c <= '9'
  }

  /** The number a string of decimal digits spells, most significant first. */
  function DigitsValue(s: string): (v: int)
  {
    if s == [] then 0 else DigitsValue(s[..|s| - 1]) * 10 + (s[|s| - 1] as int - '0' as int)
  }

  /** The decimal digits of `n`, most significant first, as `%d` prints them. */
  function NaturalDigits(n: nat): (s: string)
    ensures |s| > 0
    ensures forall i :: 0 <= i < |s| ==> IsDigit(s[i])
    ensures DigitsValue(s) == n
    ensures s[0] == '0' ==> n == 0
    decreases n
  {
    if n < 10 then ['0' + n as char]
    else
      var s := NaturalDigits(n / 10) + ['0' + (n % 10) as char];
      assert s[..|s| - 1] == NaturalDigits(n / 10);
      s
  }

  /**
   * `String.format("%d", i)`: an optional minus sign followed by the digits of
   * `|i|`, without leading zeros.
   */
  function Decimal(i: int): (s: string)
    ensures |s| > 0
    ensures s[0] == '-' <==> i < 0
    ensures forall k :: (if i < 0 then 1 else 0) <= k < |s| ==> IsDigit(s[k])
    ensures i < 0 ==> |s| > 1 && s[1] != '0' && DigitsValue(s[1..]) == -i
    ensures i >= 0 ==> DigitsValue(s) == i && (s[0] == '0' ==> s == "0")
  {
    if i < 0 then
      var digits := NaturalDigits(-i);
      assert ("-" + digits)[1..] == digits;
      "-" + digits
    else NaturalDigits(i)
  }
}
