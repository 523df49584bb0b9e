/**
 * The tracer runtime the Service Remoting integration drives, reduced to what
 * the integration observes: span records with ids, names and tags, an ambient
 * stack of active scopes, span start, activation and scope disposal.
 * Identifier generation and the sampler are external: their outcomes are
 * handed in as a `NewSpanIds` value.
 */
module Tracing {
  import opened Wrappers
  import opened Bytes

  /** The tag under which the trace origin is recorded. */
  const OriginTag: string := "_dd.origin"

  /** An exception, represented by its `ToString()` text. */
  datatype Exception = Exception(text: string)

  /** The identity a child span is started under. */
  datatype SpanContext = SpanContext(traceId: uint64, spanId: uint64, samplingPriority: Option<int32>)

  /** What the id generator and the sampler would produce for a new span:
    * the trace id used when the span starts a trace, its own span id, and the
    * sampling decision for a new trace. */
  datatype NewSpanIds = NewSpanIds(traceId: uint64, spanId: uint64, samplingPriority: Option<int32>)

  /** The Service Remoting tags set when a span is started (`RemotingTags`). */
  datatype RemotingTags = RemotingTags(
    spanKind: string,
    uri: Option<string>,
    methodName: Option<string>,
    methodId: Option<string>,
    interfaceId: Option<string>,
    invocationId: Option<string>)

  datatype Span = Span(
    traceId: uint64,
    spanId: uint64,
    parentId: Option<uint64>,
    samplingPriority: Option<int32>,
    operationName: string,
    resourceName: string,
    remotingTags: RemotingTags,
    tags: map<string, string>,
    error: bool,
    exception: Option<Exception>,
    finished: bool)
  {
    function Context(): SpanContext {
      SpanContext(traceId, spanId, samplingPriority)
    }

    function GetTag(key: string): (r: Option<string>)
      ensures r.Some? <==> key in tags
      ensures r.Some? ==> r.value == tags[key]
    {
      if key in tags then Some(tags[key]) else None
    }

    /** `SetTag`: the one tag changes, nothing else does. */
    function SetTag(key: string, value: string): (r: Span)
      ensures r.GetTag(key) == Some(value)
      ensures forall k :: k != key ==> r.GetTag(k) == GetTag(k)
      ensures r.(tags := tags) == this
    {
      this.(tags := tags[key := value])
    }

    /** `SetException`: the span is marked as errored and records the exception, if any. */
    function SetException(e: Option<Exception>): (r: Span)
      ensures r.error && r.exception == e
      ensures r.(error := error, exception := exception) == this
    {
      this.(error := true, exception := e)
    }
  }

  /** `Tracer.StartSpan(operationName, tags, parent)`: a span whose parent is the given
    * context, or else the ambient active span, or else none (a new trace). A span
    * started under the ambient span shares its trace and its origin tag. */
  function StartSpan(active: Option<Span>, operationName: string, tags: RemotingTags,
                     parent: Option<SpanContext>, ids: NewSpanIds): (r: Span)
    ensures r.operationName == operationName && r.remotingTags == tags && r.spanId == ids.spanId
    ensures !r.error && r.exception.None? && !r.finished
    ensures r.tags.Keys <= {OriginTag}
    ensures parent.Some? ==> r.traceId == parent.value.traceId && r.parentId == Some(parent.value.spanId)
    ensures parent.None? && active.Some? ==>
      r.traceId == active.value.traceId && r.parentId == Some(active.value.spanId)
      && r.GetTag(OriginTag) == active.value.GetTag(OriginTag)
    ensures parent.None? && active.None? ==> r.traceId == ids.traceId && r.parentId.None?
  {
    var p := if parent.Some? then parent else if active.Some? then Some(active.value.Context()) else None;
    var inherited: map<string, string> :=
      if parent.None? && active.Some? && OriginTag in active.value.tags
      then map[OriginTag := active.value.tags[OriginTag]] else map[];
    Span(
      if p.Some? then p.value.traceId else ids.traceId,
      ids.spanId,
      if p.Some? then Some(p.value.spanId) else None,
      if p.Some? then p.value.samplingPriority else ids.samplingPriority,
      operationName,
      operationName,
      tags,
      inherited,
      false,
      None,
      false)
  }

  /** The tracer: its ambient scope stack (the last scope is the active one) and the
    * spans closed so far, in the order they were closed. */
  class Tracer {
    var scopes: seq<Span>
    var finished: seq<Span>

    constructor ()
      ensures scopes == [] && finished == []
    {
      scopes := [];
      finished := [];
    }

    /** `Tracer.ActiveScope?.Span`. */
    function ActiveSpan(): (r: Option<Span>)
      reads this
      ensures r.Some? <==> scopes != []
      ensures r.Some? ==> r.value == scopes[|scopes| - 1]
    {
      if scopes == [] then None else Some(scopes[|scopes| - 1])
    }

    /** `Tracer.ActivateSpan(span)`: the span becomes the active scope. */
    method ActivateSpan(span: Span)
      modifies this
      ensures scopes == old(scopes) + [span] && finished == old(finished)
    {
      scopes := scopes + [span];
    }

    /** Replace the active span by an updated record of it (tags or error set on it). */
    method UpdateActiveSpan(span: Span)
      requires scopes != []
      modifies this
      ensures scopes == old(scopes)[..|old(scopes)| - 1] + [span] && finished == old(finished)
    {
      scopes := scopes[..|scopes| - 1] + [span];
    }

    /** `scope.Dispose()` on the active scope: its span is finished and the enclosing
      * scope becomes active again. */
    method DisposeActiveScope()
      requires scopes != []
      modifies this
      ensures scopes == old(scopes)[..|old(scopes)| - 1]
      ensures finished == old(finished) + [old(scopes)[|old(scopes)| - 1].(finished := true)]
    {
      var span := scopes[|scopes| - 1];
      finished := finished + [span.(finished := true)];
      scopes := scopes[..|scopes| - 1];
    }
  }
}
