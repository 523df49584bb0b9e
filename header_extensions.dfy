/**
 * The per-call request message header of Service Remoting and the
 * extension methods the tracer uses on it: add-if-absent, and readers that
 * decode a header's bytes as a 32-bit integer, a 64-bit unsigned integer or
 * a UTF-8 string, rejecting a value of the wrong width.
 */
module HeaderExtensions {
  import opened Wrappers
  import opened Bytes
  import Utf8

  /** The named binary headers of one call; names are case-sensitive and unique. */
  type Headers = map<string, seq<byte>>

  /** The trace identity carried from caller to callee. */
  datatype PropagationContext = PropagationContext(
    traceId: uint64,
    parentSpanId: uint64,
    samplingPriority: Option<int32>,
    origin: Option<string>)

  /** The header store's own lookup (`TryGetHeaderValue`). */
  function TryGetHeaderValue(h: Headers, headerName: string): (r: Option<seq<byte>>)
    ensures r.Some? <==> headerName in h
    ensures r.Some? ==> r.value == h[headerName]
  {
    if headerName in h then Some(h[headerName]) else None
  }

  /** The store after an add-if-absent of `bytes` under `headerName`. */
  function AddIfAbsent(h: Headers, headerName: string, bytes: seq<byte>): (r: Headers)
    ensures r.Keys == h.Keys + {headerName}
    ensures forall k :: k in h ==> r[k] == h[k]
    ensures headerName !in h ==> r[headerName] == bytes
  {
    if headerName in h then h else h[headerName := bytes]
  }

  /** A second add under the same name keeps the first value. */
  lemma AddIfAbsentIdempotent(h: Headers, headerName: string, first: seq<byte>, second: seq<byte>)
    ensures AddIfAbsent(AddIfAbsent(h, headerName, first), headerName, second) == AddIfAbsent(h, headerName, first)
  {
  }

  /** `TryGetHeaderValueInt32`: present and exactly 4 bytes wide, or null. */
  function TryGetHeaderValueInt32(h: Headers, headerName: string): (r: Option<int32>)
    ensures r.Some? <==> headerName in h && |h[headerName]| == 4
    ensures r.Some? ==> EncodeInt32(r.value) == h[headerName]
  {
    match TryGetHeaderValue(h, headerName)
    case Some(bytes) => if |bytes| == 4 then Some(DecodeInt32(bytes)) else None
    case None => None
  }

  /** `TryGetHeaderValueUInt64`: present and exactly 8 bytes wide, or null. */
  function TryGetHeaderValueUInt64(h: Headers, headerName: string): (r: Option<uint64>)
    ensures r.Some? <==> headerName in h && |h[headerName]| == 8
    ensures r.Some? ==> EncodeUInt64(r.value) == h[headerName]
  {
    match TryGetHeaderValue(h, headerName)
    case Some(bytes) => if |bytes| == 8 then Some(DecodeUInt64(bytes)) else None
    case None => None
  }

  /** `TryGetHeaderValueString`: present with at least one byte, or null. */
  function TryGetHeaderValueString(h: Headers, headerName: string): (r: Option<string>)
    ensures r.Some? <==> headerName in h && |h[headerName]| > 0
    ensures r.Some? ==> r.value != [] && |r.value| <= |h[headerName]|
    ensures r.Some? ==> r.value == Utf8.Decode(h[headerName])
  {
    match TryGetHeaderValue(h, headerName)
    case Some(bytes) => if |bytes| > 0 then Some(Utf8.Decode(bytes)) else None
    case None => None
  }

  /** A 4-byte value written with `BitConverter.GetBytes(int)` reads back unchanged. */
  lemma Int32HeaderRoundTrip(h: Headers, headerName: string, v: int32)
    ensures TryGetHeaderValueInt32(h[headerName := EncodeInt32(v)], headerName) == Some(v)
  {
    DecodeEncodeInt32(v);
  }

  /** An 8-byte value written with `BitConverter.GetBytes(ulong)` reads back unchanged. */
  lemma UInt64HeaderRoundTrip(h: Headers, headerName: string, x: uint64)
    ensures TryGetHeaderValueUInt64(h[headerName := EncodeUInt64(x)], headerName) == Some(x)
  {
    DecodeEncodeUInt64(x);
  }

  /** A UTF-8 string reads back unchanged, except that the empty string reads as null. */
  lemma StringHeaderRoundTrip(h: Headers, headerName: string, s: string)
    ensures TryGetHeaderValueString(h[headerName := Utf8.Encode(s)], headerName)
            == if s == "" then None else Some(s)
  {
    Utf8.DecodeEncode(s);
  }

  /** The request message header of one call (`IServiceRemotingRequestMessageHeader`). */
  class RequestMessageHeader {
    var methodId: int32
    var interfaceId: int32
    var invocationId: Option<string>
    var headers: Headers

    constructor (methodId: int32, interfaceId: int32, invocationId: Option<string>, headers: Headers)
      ensures this.methodId == methodId && this.interfaceId == interfaceId
      ensures this.invocationId == invocationId && this.headers == headers
    {
      this.methodId := methodId;
      this.interfaceId := interfaceId;
      this.invocationId := invocationId;
      this.headers := headers;
    }

    /** `TryAddHeader`: when `headerName` is absent, store `headerValue(context)` under it
      * and answer true; when present, answer false and leave the store alone. */
    method TryAddHeader(headerName: string, context: PropagationContext,
                        headerValue: PropagationContext -> seq<byte>) returns (added: bool)
      modifies this`headers
      ensures added <==> headerName !in old(headers)
      ensures headers == AddIfAbsent(old(headers), headerName, headerValue(context))
    {
      if TryGetHeaderValue(headers, headerName).None? {
        var bytes := headerValue(context);
        headers := headers[headerName := bytes];
        added := true;
      } else {
        added := false;
      }
    }
  }
}
