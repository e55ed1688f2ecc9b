/**
 * Commands: the request and response envelopes exchanged over a connection,
 * and the mutable `Header` object a client fills in before sending.
 */
module Commands {
  import opened Wrappers
  import opened Lang

  /** `Integer.BYTES`. */
  const INT_BYTES: nat := 4

  /** The one command kind of this core, an RPC request (`ServiceTypes.TYPE_RPC_REQUEST`). */
  const TYPE_RPC_REQUEST: Int32 := 0

  /** The protocol version a client stamps on its requests. */
  const PROTOCOL_VERSION: Int32 := 1

  /** The response codes (`Code`); only their distinctness and SUCCESS being 0 matter. */
  datatype Code = Success | NoProvider | UnknownError
  {
    function Value(): (v: Int32)
      ensures v == 0 <==> this == Success
    {
      match this
      case Success => 0
      case UnknownError => -1
      case NoProvider => -2
    }
  }

  /**
   * A header as it travels: a request header has the three fixed fields; a
   * response header adds the result code and the error text (null is `None`).
   */
  datatype CommandHeader =
    | RequestHeader(requestId: Int32, version: Int32, commandType: Int32)
    | ResponseHeader(requestId: Int32, version: Int32, commandType: Int32, code: Int32, error: Option<string>)

  /** `new ResponseHeader(type, version, requestId)`: the success response header. */
  function SuccessHeader(commandType: Int32, version: Int32, requestId: Int32): (h: CommandHeader)
    ensures h.ResponseHeader? && h.code == Success.Value()
    ensures h.requestId == requestId && h.version == version && h.commandType == commandType
  {
    ResponseHeader(requestId, version, commandType, Success.Value(), Some(""))
  }

  /** A command: a header followed by an opaque payload. */
  datatype Command = Command(header: CommandHeader, payload: seq<Int8>)

  /** The request header object, whose fields the client sets one by one. */
  class Header {
    var requestId: Int32
    var version: Int32
    var commandType: Int32

    /** `new Header()`: every field holds Java's default 0. */
    constructor Empty()
      ensures requestId == 0 && version == 0 && commandType == 0
    {
      requestId, version, commandType := 0, 0, 0;
    }

    /** `new Header(type, version, requestId)`: note the argument order differs from the field order. */
    constructor (commandType: Int32, version: Int32, requestId: Int32)
      ensures this.requestId == requestId
      ensures this.version == version
      ensures this.commandType == commandType
    {
      this.requestId := requestId;
      this.commandType := commandType;
      this.version := version;
    }

    method GetRequestId() returns (r: Int32)
      ensures r == requestId
    {
      r := requestId;
    }

    method SetRequestId(requestId: Int32)
      modifies this
      ensures this.requestId == requestId
      ensures version == old(version) && commandType == old(commandType)
    {
      this.requestId := requestId;
    }

    method GetVersion() returns (r: Int32)
      ensures r == version
    {
      r := version;
    }

    method SetVersion(version: Int32)
      modifies this
      ensures this.version == version
      ensures requestId == old(requestId) && commandType == old(commandType)
    {
      this.version := version;
    }

    method GetType() returns (r: Int32)
      ensures r == commandType
    {
      r := commandType;
    }

    method SetType(commandType: Int32)
      modifies this
      ensures this.commandType == commandType
      ensures requestId == old(requestId) && version == old(version)
    {
      this.commandType := commandType;
    }

    /** The encoded size of the header: three 32-bit fields, whatever their values (no reads clause). */
    function Length(): (n: nat)
      ensures n == 12
    {
      INT_BYTES + INT_BYTES + INT_BYTES
    }

    /** The header's current field values, as they go on the wire. */
    function Snapshot(): (h: CommandHeader)
      reads this
    {
      RequestHeader(requestId, version, commandType)
    }
  }
}
