/**
 * Tracing of Service Remoting calls: the propagation context written into and
 * read out of the request headers, the one-time start of tracing with its
 * cached analytics rates, span naming, and the four event handlers that open
 * a span when a request is sent or received and close it when the response
 * comes back or goes out.
 */
module Remoting {
  import opened Wrappers
  import opened Bytes
  import Utf8
  import Decimal
  import opened HeaderExtensions
  import opened Tracing

  const SpanNamePrefix: string := "service-remoting"
  const ClientKind: string := "client"
  const ServerKind: string := "server"

  /** The four well-known propagation headers. */
  const TraceIdHeader: string := "x-datadog-trace-id"
  const ParentIdHeader: string := "x-datadog-parent-id"
  const SamplingPriorityHeader: string := "x-datadog-sampling-priority"
  const OriginHeader: string := "x-datadog-origin"

  /** The tag holding the analytics sample rate. */
  const AnalyticsTag: string := "_dd1.sr.eausr"

  predicate IsNullOrEmpty(s: Option<string>) {
    s.None? || s.value == ""
  }

  // ---------------------------------------------------------------- context codec

  /** The header value functions `InjectContext` hands to `TryAddHeader`. */
  function TraceIdBytes(ctx: PropagationContext): seq<byte> { EncodeUInt64(ctx.traceId) }
  function ParentIdBytes(ctx: PropagationContext): seq<byte> { EncodeUInt64(ctx.parentSpanId) }
  function SamplingPriorityBytes(ctx: PropagationContext): seq<byte> { EncodeInt32(ctx.samplingPriority.GetOr(0)) }
  function OriginBytes(ctx: PropagationContext): seq<byte> { Utf8.Encode(ctx.origin.GetOr("")) }

  /** The header names an injection of ctx writes, when they are not already present. */
  function InjectedKeys(ctx: PropagationContext): set<string> {
    if ctx.traceId == 0 || ctx.parentSpanId == 0 then {}
    else
      {TraceIdHeader, ParentIdHeader}
      + (if ctx.samplingPriority.Some? then {SamplingPriorityHeader} else {})
      + (if !IsNullOrEmpty(ctx.origin) then {OriginHeader} else {})
  }

  /** The header store after `InjectContext(ctx, ...)`. */
  function Injected(h: Headers, ctx: PropagationContext): (r: Headers)
    ensures ctx.traceId == 0 || ctx.parentSpanId == 0 ==> r == h
    ensures r.Keys == h.Keys + InjectedKeys(ctx)
    ensures forall k :: k in h ==> r[k] == h[k]
  {
    if ctx.traceId == 0 || ctx.parentSpanId == 0 then h
    else
      var h1 := AddIfAbsent(h, TraceIdHeader, TraceIdBytes(ctx));
      var h2 := AddIfAbsent(h1, ParentIdHeader, ParentIdBytes(ctx));
      var h3 := if ctx.samplingPriority.Some? then AddIfAbsent(h2, SamplingPriorityHeader, SamplingPriorityBytes(ctx)) else h2;
      if !IsNullOrEmpty(ctx.origin) then AddIfAbsent(h3, OriginHeader, OriginBytes(ctx)) else h3
  }

  /** `InjectContext`: writes a fully identified context into the headers, add-if-absent. */
  method InjectContext(context: PropagationContext, messageHeaders: RequestMessageHeader)
    modifies messageHeaders`headers
    ensures messageHeaders.headers == Injected(old(messageHeaders.headers), context)
  {
    if context.traceId == 0 || context.parentSpanId == 0 {
      return;
    }
    var _ := messageHeaders.TryAddHeader(TraceIdHeader, context, TraceIdBytes);
    var _ := messageHeaders.TryAddHeader(ParentIdHeader, context, ParentIdBytes);
    if context.samplingPriority.Some? {
      var _ := messageHeaders.TryAddHeader(SamplingPriorityHeader, context, SamplingPriorityBytes);
    }
    if !IsNullOrEmpty(context.origin) {
      var _ := messageHeaders.TryAddHeader(OriginHeader, context, OriginBytes);
    }
  }

  /** The headers hold a usable id under `name`: 8 bytes that do not encode zero. */
  predicate CarriesId(h: Headers, name: string) {
    name in h && |h[name]| == 8 && h[name] != EncodeUInt64(0)
  }

  /** `ExtractContext`: the propagation context in the headers, or null when the trace id
    * or the parent id is missing, of the wrong width or zero. */
  function ExtractContext(h: Headers): (r: Option<PropagationContext>)
    ensures r.Some? <==> CarriesId(h, TraceIdHeader) && CarriesId(h, ParentIdHeader)
    ensures r.Some? ==>
      && EncodeUInt64(r.value.traceId) == h[TraceIdHeader]
      && EncodeUInt64(r.value.parentSpanId) == h[ParentIdHeader]
      && r.value.samplingPriority == TryGetHeaderValueInt32(h, SamplingPriorityHeader)
      && r.value.origin == TryGetHeaderValueString(h, OriginHeader)
  {
    DecodeEncodeUInt64(0);
    var traceId := TryGetHeaderValueUInt64(h, TraceIdHeader).GetOr(0);
    if traceId > 0 then
      var parentSpanId := TryGetHeaderValueUInt64(h, ParentIdHeader).GetOr(0);
      if parentSpanId > 0 then
        Some(PropagationContext(traceId, parentSpanId,
                                TryGetHeaderValueInt32(h, SamplingPriorityHeader),
                                TryGetHeaderValueString(h, OriginHeader)))
      else None
    else None
  }

  /** A context as it arrives: the same, except that an empty origin is not sent. */
  function AsReceived(ctx: PropagationContext): PropagationContext {
    ctx.(origin := if IsNullOrEmpty(ctx.origin) then None else ctx.origin)
  }

  predicate HasNoPropagationHeaders(h: Headers) {
    TraceIdHeader !in h && ParentIdHeader !in h && SamplingPriorityHeader !in h && OriginHeader !in h
  }

  /** Injecting a fully identified context into headers that hold none of the four keys,
    * then extracting, gives the context back. */
  lemma InjectExtractRoundTrip(h: Headers, ctx: PropagationContext)
    requires ctx.traceId != 0 && ctx.parentSpanId != 0
    requires HasNoPropagationHeaders(h)
    ensures ExtractContext(Injected(h, ctx)) == Some(AsReceived(ctx))
  {
    var r := Injected(h, ctx);
    DecodeEncodeUInt64(ctx.traceId);
    DecodeEncodeUInt64(ctx.parentSpanId);
    DecodeEncodeUInt64(0);
    assert r[TraceIdHeader] == EncodeUInt64(ctx.traceId);
    assert r[ParentIdHeader] == EncodeUInt64(ctx.parentSpanId);
    if ctx.samplingPriority.Some? {
      DecodeEncodeInt32(ctx.samplingPriority.value);
      assert r[SamplingPriorityHeader] == EncodeInt32(ctx.samplingPriority.value);
    }
    if !IsNullOrEmpty(ctx.origin) {
      Utf8.DecodeEncode(ctx.origin.value);
      assert r[OriginHeader] == Utf8.Encode(ctx.origin.value);
    }
    var e := ExtractContext(r);
    assert e.Some?;
    assert e.value.traceId == ctx.traceId;
    assert e.value.parentSpanId == ctx.parentSpanId;
  }

  /** Injecting the same context a second time changes nothing. */
  lemma InjectIdempotent(h: Headers, ctx: PropagationContext)
    ensures Injected(Injected(h, ctx), ctx) == Injected(h, ctx)
  {
    var once := Injected(h, ctx);
    var twice := Injected(once, ctx);
    assert twice.Keys == once.Keys;
  }

  /** Whatever else the headers hold, a missing, malformed or zero trace id or parent id
    * means no context. */
  lemma ExtractNeedsBothIds(h: Headers, other: Headers)
    requires !CarriesId(h, TraceIdHeader) || !CarriesId(h, ParentIdHeader)
    ensures ExtractContext(h + (other - {TraceIdHeader, ParentIdHeader})).None?
  {
    var g := h + (other - {TraceIdHeader, ParentIdHeader});
    assert forall k :: k in {TraceIdHeader, ParentIdHeader} ==> (k in g <==> k in h) && (k in h ==> g[k] == h[k]);
    assert !CarriesId(g, TraceIdHeader) || !CarriesId(g, ParentIdHeader);
  }

  // ---------------------------------------------------------------- naming

  /** `GetSpanName`: the operation name of a span of the given kind. */
  function GetSpanName(spanKind: string): (r: string)
    ensures |r| == |SpanNamePrefix| + 1 + |spanKind|
    ensures r[..|SpanNamePrefix| + 1] == "service-remoting." && r[|SpanNamePrefix| + 1..] == spanKind
  {
    SpanNamePrefix + "." + spanKind
  }

  /** Different kinds give different operation names, so a finish handler can tell
    * whose span is active. */
  lemma {:induction false} SpanNameInjective(kind1: string, kind2: string)
    ensures GetSpanName(kind1) == GetSpanName(kind2) <==> kind1 == kind2
  {
    var n := |SpanNamePrefix| + 1;
    if GetSpanName(kind1) == GetSpanName(kind2) {
      assert kind1 == GetSpanName(kind1)[n..];
      assert kind2 == GetSpanName(kind2)[n..];
    }
  }

  /** The request event arguments (`IServiceRemotingRequestEventArgs`): the call's header,
    * absent when the request or its header is null, the service address (`AbsoluteUri`)
    * and the method name. */
  datatype RequestEventArgs = RequestEventArgs(
    header: Option<RequestMessageHeader>,
    serviceUri: Option<string>,
    methodName: Option<string>)

  /** The event arguments the four events deliver, by their runtime type. */
  datatype EventArgs =
    | RequestEvent(args: RequestEventArgs)
    | ResponseEvent
    | FailedResponseEvent(error: Option<Exception>)
    | OtherEvent(typeName: string)

  /** What `CreateSpan` reads of the request header. */
  datatype HeaderView = HeaderView(methodId: int32, interfaceId: int32, invocationId: Option<string>)

  /** `GetMessageHeaders`: the request view of the event arguments and the call's header;
    * both null unless the arguments are a request event. */
  function GetMessageHeaders(e: Option<EventArgs>): (r: (Option<RequestEventArgs>, Option<RequestMessageHeader>))
    ensures r.0.None? ==> r.1.None?
    ensures r.0.Some? <==> e.Some? && e.value.RequestEvent?
    ensures e.Some? && e.value.RequestEvent? ==> r == (Some(e.value.args), e.value.args.header)
  {
    match e
    case Some(RequestEvent(args)) => (Some(args), args.header)
    case _ => (None, None)
  }

  /** The request header an event carries, as the set of objects a handler may write. */
  function HeaderObjects(e: Option<EventArgs>): set<RequestMessageHeader> {
    var header := GetMessageHeaders(e).1;
    if header.Some? then {header.value} else {}
  }

  function ViewOf(header: Option<RequestMessageHeader>): Option<HeaderView>
    reads if header.Some? then {header.value} else {}
  {
    if header.Some? then Some(HeaderView(header.value.methodId, header.value.interfaceId, header.value.invocationId))
    else None
  }

  /** The method name `CreateSpan` records: with event arguments, always the header's
    * numeric method id (the name carried by the arguments is never consulted). */
  function MethodNameOf(eventArgs: Option<RequestEventArgs>, header: Option<HeaderView>): Option<string> {
    if eventArgs.None? then None
    else if header.Some? then Some(Decimal.IntToString(header.value.methodId))
    else Some("unknown_method")
  }

  function ServiceUrlOf(eventArgs: Option<RequestEventArgs>): Option<string> {
    if eventArgs.None? then None else Some(eventArgs.value.serviceUri.GetOr("unknown_url"))
  }

  /** The cached analytics rate that applies to spans of the given kind. */
  function AnalyticsRateFor(spanKind: string, clientRate: Option<string>, serverRate: Option<string>): Option<string> {
    if spanKind == ClientKind then clientRate
    else if spanKind == ServerKind then serverRate
    else None
  }

  /** `CreateSpan`: starts a span of the given kind with its Service Remoting tags, sets its
    * resource name and, when a rate is cached for its kind, the analytics tag. */
  function CreateSpan(active: Option<Span>, context: Option<SpanContext>, spanKind: string,
                      eventArgs: Option<RequestEventArgs>, header: Option<HeaderView>,
                      clientRate: Option<string>, serverRate: Option<string>, ids: NewSpanIds): (r: Span)
    ensures r.operationName == "service-remoting." + spanKind
    ensures eventArgs.None? ==> r.resourceName == "unknown"
    ensures eventArgs.Some? ==>
      r.resourceName == eventArgs.value.serviceUri.GetOr("unknown_url") + "/"
        + (if header.Some? then Decimal.IntToString(header.value.methodId) else "unknown_method")
    ensures r.GetTag(AnalyticsTag) == AnalyticsRateFor(spanKind, clientRate, serverRate)
    ensures r.remotingTags.spanKind == spanKind
    ensures header.Some? ==>
      && r.remotingTags.methodId == Some(Decimal.IntToString(header.value.methodId))
      && r.remotingTags.interfaceId == Some(Decimal.IntToString(header.value.interfaceId))
    ensures header.None? ==> r.remotingTags.methodId.None? && r.remotingTags.interfaceId.None?
    ensures r.remotingTags.uri == (if eventArgs.Some? then Some(eventArgs.value.serviceUri.GetOr("unknown_url")) else None)
    // the method-name tag is never the name the arguments carry, only the header's id
    ensures r.remotingTags.methodName ==
      (if eventArgs.None? then None
       else if header.Some? then Some(Decimal.IntToString(header.value.methodId))
       else Some("unknown_method"))
    ensures r.remotingTags.invocationId == (if header.Some? then header.value.invocationId else None)
    ensures context.None? && active.Some? ==> r.GetTag(OriginTag) == active.value.GetTag(OriginTag)
    ensures context.Some? ==> r.traceId == context.value.traceId && r.parentId == Some(context.value.spanId)
    ensures context.Some? ==> r.samplingPriority == context.value.samplingPriority
    ensures context.None? && active.Some? ==>
      && r.traceId == active.value.traceId
      && r.parentId == Some(active.value.spanId)
      && r.samplingPriority == active.value.samplingPriority
    ensures context.None? && active.None? ==> r.traceId == ids.traceId && r.parentId.None?
    ensures r.spanId == ids.spanId && !r.error && !r.finished
  {
    var methodName := MethodNameOf(eventArgs, header);
    var serviceUrl := ServiceUrlOf(eventArgs);
    var resourceName := if eventArgs.Some? then Some(serviceUrl.value + "/" + methodName.value) else None;
    var tags := RemotingTags(
      spanKind, serviceUrl, methodName,
      if header.Some? then Some(Decimal.IntToString(header.value.methodId)) else None,
      if header.Some? then Some(Decimal.IntToString(header.value.interfaceId)) else None,
      if header.Some? then header.value.invocationId else None);
    var span := StartSpan(active, GetSpanName(spanKind), tags, context, ids).(resourceName := resourceName.GetOr("unknown"));
    var rate := AnalyticsRateFor(spanKind, clientRate, serverRate);
    if rate.Some? then span.SetTag(AnalyticsTag, rate.value) else span
  }

  // ---------------------------------------------------------------- analytics rates

  /** The per-integration settings: its optional analytics flag and its sample rate,
    * held as the rate's invariant-culture text. */
  datatype IntegrationSettings = IntegrationSettings(analyticsEnabled: Option<bool>, analyticsSampleRate: string)

  /** The tracer settings the integration consults. */
  datatype TracerSettings = TracerSettings(integration: IntegrationSettings, analyticsEnabled: bool)

  /** `GetAnalyticsSampleRate`: the integration's rate when analytics is enabled for it. */
  function GetAnalyticsSampleRate(settings: TracerSettings, enabledWithGlobalSetting: bool): (r: Option<string>)
    ensures r.Some? <==>
      settings.integration.analyticsEnabled == Some(true)
      || (settings.integration.analyticsEnabled.None? && enabledWithGlobalSetting && settings.analyticsEnabled)
    ensures r.Some? ==> r.value == settings.integration.analyticsSampleRate
  {
    var analyticsEnabled := settings.integration.analyticsEnabled.GetOr(enabledWithGlobalSetting && settings.analyticsEnabled);
    if analyticsEnabled then Some(settings.integration.analyticsSampleRate) else None
  }

  // ---------------------------------------------------------------- one-time start

  datatype RemotingEvent = ClientSendRequest | ClientReceiveResponse | ServiceReceiveRequest | ServiceSendResponse

  /** The four subscriptions, in the order `StartTracing` makes them. */
  const AllEvents: seq<RemotingEvent> := [ClientSendRequest, ClientReceiveResponse, ServiceReceiveRequest, ServiceSendResponse]

  /** The integration's process-wide state. */
  datatype GateState = GateState(
    firstInitialization: int,
    initialized: bool,
    clientAnalyticsSampleRate: Option<string>,
    serverAnalyticsSampleRate: Option<string>,
    subscriptions: seq<RemotingEvent>)

  const InitialGate: GateState := GateState(1, false, None, None, [])

  /** The state after `StartTracing`: the exchange always leaves the flag 0; only the call
    * that found it 1 caches the rates, subscribes and then marks the gate initialized. */
  function StartTracingStep(g: GateState, settings: TracerSettings): (r: GateState)
    ensures r.firstInitialization == 0
    ensures g.firstInitialization != 1 ==> r == g.(firstInitialization := 0)
    ensures g.firstInitialization == 1 ==>
      r.initialized && r.subscriptions == g.subscriptions + AllEvents
      && r.clientAnalyticsSampleRate == GetAnalyticsSampleRate(settings, false)
      && r.serverAnalyticsSampleRate == GetAnalyticsSampleRate(settings, true)
  {
    var previous := g.firstInitialization;
    var g' := g.(firstInitialization := 0);
    if previous == 1 then
      g'.(clientAnalyticsSampleRate := GetAnalyticsSampleRate(settings, false),
          serverAnalyticsSampleRate := GetAnalyticsSampleRate(settings, true),
          subscriptions := g.subscriptions + AllEvents,
          initialized := true)
    else g'
  }

  /** The state after a series of `StartTracing` calls. */
  function StartTracingAll(g: GateState, calls: seq<TracerSettings>): GateState
    decreases |calls|
  {
    if calls == [] then g else StartTracingAll(StartTracingStep(g, calls[0]), calls[1..])
  }

  /** Once the flag is 0, further starts change nothing: the cached rates never change. */
  lemma {:induction false} StartedGateIsStable(g: GateState, calls: seq<TracerSettings>)
    requires g.firstInitialization == 0
    ensures StartTracingAll(g, calls) == g
    decreases |calls|
  {
    if calls != [] {
      StartedGateIsStable(StartTracingStep(g, calls[0]), calls[1..]);
    }
  }

  /** However many times tracing is started, the body runs once: the four events are
    * subscribed once, the gate is open, and the rates are those of the first call. */
  lemma StartTracingRunsOnce(calls: seq<TracerSettings>)
    requires calls != []
    ensures StartTracingAll(InitialGate, calls) == StartTracingStep(InitialGate, calls[0])
    ensures StartTracingAll(InitialGate, calls).subscriptions == AllEvents
    ensures StartTracingAll(InitialGate, calls).initialized
  {
    StartedGateIsStable(StartTracingStep(InitialGate, calls[0]), calls[1..]);
  }

  // ---------------------------------------------------------------- spans of the handlers

  /** The context the client injects: the new span's own trace id and span id. */
  function ClientContext(span: Span): PropagationContext {
    PropagationContext(span.traceId, span.spanId, span.samplingPriority, span.GetTag(OriginTag))
  }

  /** The context a server span is started under, when one was extracted. */
  function ServerParent(extracted: Option<PropagationContext>): Option<SpanContext> {
    if extracted.Some? then Some(SpanContext(extracted.value.traceId, extracted.value.parentSpanId, extracted.value.samplingPriority))
    else None
  }

  /** The span the server-receive handler activates: a child of the extracted context, if
    * any, carrying the extracted origin as a tag when it is not empty. */
  function ServerRequestSpan(active: Option<Span>, extracted: Option<PropagationContext>,
                             eventArgs: Option<RequestEventArgs>, header: Option<HeaderView>,
                             clientRate: Option<string>, serverRate: Option<string>, ids: NewSpanIds): (r: Span)
    ensures r.operationName == GetSpanName(ServerKind)
    ensures extracted.Some? ==>
      && r.traceId == extracted.value.traceId
      && r.parentId == Some(extracted.value.parentSpanId)
      && r.samplingPriority == extracted.value.samplingPriority
    ensures extracted.None? && active.None? ==> r.parentId.None?
    ensures extracted.Some? && !IsNullOrEmpty(extracted.value.origin) ==> r.GetTag(OriginTag) == extracted.value.origin
    ensures extracted.Some? && IsNullOrEmpty(extracted.value.origin) ==> r.GetTag(OriginTag).None?
    ensures r.GetTag(AnalyticsTag) == serverRate
  {
    var span := CreateSpan(active, ServerParent(extracted), ServerKind, eventArgs, header, clientRate, serverRate, ids);
    var origin := if extracted.Some? then extracted.value.origin else None;
    if !IsNullOrEmpty(origin) then span.SetTag(OriginTag, origin.value) else span
  }

  /** A client span injected into a fresh header store is picked up by the server: the
    * server span joins the client's trace as a child of the client span. */
  lemma ClientToServerPropagation(client: Span, h: Headers, active: Option<Span>,
                                  eventArgs: Option<RequestEventArgs>, header: Option<HeaderView>,
                                  clientRate: Option<string>, serverRate: Option<string>, ids: NewSpanIds)
    requires client.traceId != 0 && client.spanId != 0
    requires HasNoPropagationHeaders(h)
    ensures var extracted := ExtractContext(Injected(h, ClientContext(client)));
            var server := ServerRequestSpan(active, extracted, eventArgs, header, clientRate, serverRate, ids);
            server.traceId == client.traceId && server.parentId == Some(client.spanId)
            && server.samplingPriority == client.samplingPriority
  {
    InjectExtractRoundTrip(h, ClientContext(client));
  }

  /** Whether a finish handler of the given kind closes the active span. */
  predicate ClosesActiveSpan(active: Option<Span>, spanKind: string) {
    active.Some? && active.value.operationName == GetSpanName(spanKind)
  }

  /** A span opened by a handler of one kind is closed by the finish handler of the same
    * kind and left alone by the other. */
  lemma FinishPairsWithStart(span: Span, startKind: string, finishKind: string)
    requires span.operationName == GetSpanName(startKind)
    ensures ClosesActiveSpan(Some(span), finishKind) <==> startKind == finishKind
  {
    SpanNameInjective(startKind, finishKind);
  }

  /** The error-attach step of `FinishSpan` as the code has it: `SetException` is called
    * only when a failed response carries no exception, so a carried exception is never
    * recorded. */
  function AttachFailure(span: Span, e: Option<EventArgs>): (r: Span)
    ensures (e.Some? && e.value.FailedResponseEvent? && e.value.error.None?) ==> r == span.SetException(None)
    ensures !(e.Some? && e.value.FailedResponseEvent? && e.value.error.None?) ==> r == span
  {
    match e
    case Some(FailedResponseEvent(error)) => if error.None? then span.SetException(error) else span
    case _ => span
  }

  // ---------------------------------------------------------------- the integration

  /** The static state of `Remoting` and its event handlers. */
  class RemotingIntegration {
    var firstInitialization: int
    var initialized: bool
    var clientAnalyticsSampleRate: Option<string>
    var serverAnalyticsSampleRate: Option<string>
    var subscriptions: seq<RemotingEvent>

    function State(): GateState
      reads this
    {
      GateState(firstInitialization, initialized, clientAnalyticsSampleRate, serverAnalyticsSampleRate, subscriptions)
    }

    constructor ()
      ensures State() == InitialGate
    {
      firstInitialization := 1;
      initialized := false;
      clientAnalyticsSampleRate := None;
      serverAnalyticsSampleRate := None;
      subscriptions := [];
    }

    /** `StartTracing`. */
    method StartTracing(settings: TracerSettings)
      modifies this
      ensures State() == StartTracingStep(old(State()), settings)
    {
      var previous := firstInitialization;
      firstInitialization := 0;
      if previous == 1 {
        clientAnalyticsSampleRate := GetAnalyticsSampleRate(settings, false);
        serverAnalyticsSampleRate := GetAnalyticsSampleRate(settings, true);
        subscriptions := subscriptions + [ClientSendRequest, ClientReceiveResponse];
        subscriptions := subscriptions + [ServiceReceiveRequest, ServiceSendResponse];
        initialized := true;
      }
    }

    /** `ServiceRemotingClientEvents_SendRequest`: opens a client span, injects its identity
      * into the call's headers when there are headers, and activates it. */
    method ClientSendRequestHandler(tracer: Tracer, e: Option<EventArgs>, ids: NewSpanIds)
      modifies tracer, HeaderObjects(e)`headers
      ensures !initialized ==> unchanged(tracer) && unchanged(HeaderObjects(e))
      ensures initialized ==>
        var header := GetMessageHeaders(e).1;
        var span := CreateSpan(old(tracer.ActiveSpan()), None, ClientKind, GetMessageHeaders(e).0,
                               old(ViewOf(header)), clientAnalyticsSampleRate, serverAnalyticsSampleRate, ids);
        && tracer.scopes == old(tracer.scopes) + [span]
        && tracer.finished == old(tracer.finished)
        && (header.Some? ==> header.value.headers == Injected(old(header.value.headers), ClientContext(span)))
    {
      if !initialized {
        return;
      }
      var (eventArgs, messageHeaders) := GetMessageHeaders(e);
      var span := CreateSpan(tracer.ActiveSpan(), None, ClientKind, eventArgs, ViewOf(messageHeaders),
                             clientAnalyticsSampleRate, serverAnalyticsSampleRate, ids);
      if messageHeaders.Some? {
        InjectContext(ClientContext(span), messageHeaders.value);
      }
      tracer.ActivateSpan(span);
    }

    /** `ServiceRemotingServiceEvents_ReceiveRequest`: extracts the caller's context from the
      * headers when there are headers, opens a server span under it and activates it. */
    method ServiceReceiveRequestHandler(tracer: Tracer, e: Option<EventArgs>, ids: NewSpanIds)
      modifies tracer
      ensures !initialized ==> unchanged(tracer)
      ensures initialized ==>
        var header := GetMessageHeaders(e).1;
        var extracted := if header.Some? then ExtractContext(header.value.headers) else None;
        && tracer.scopes == old(tracer.scopes)
             + [ServerRequestSpan(old(tracer.ActiveSpan()), extracted, GetMessageHeaders(e).0, ViewOf(header),
                                  clientAnalyticsSampleRate, serverAnalyticsSampleRate, ids)]
        && tracer.finished == old(tracer.finished)
    {
      if !initialized {
        return;
      }
      var (eventArgs, messageHeaders) := GetMessageHeaders(e);
      var propagationContext: Option<PropagationContext> := None;
      var spanContext: Option<SpanContext> := None;
      if messageHeaders.Some? {
        propagationContext := ExtractContext(messageHeaders.value.headers);
        if propagationContext.Some? {
          spanContext := Some(SpanContext(propagationContext.value.traceId, propagationContext.value.parentSpanId,
                                          propagationContext.value.samplingPriority));
        }
      }
      var span := CreateSpan(tracer.ActiveSpan(), spanContext, ServerKind, eventArgs, ViewOf(messageHeaders),
                             clientAnalyticsSampleRate, serverAnalyticsSampleRate, ids);
      var origin := if propagationContext.Some? then propagationContext.value.origin else None;
      if !IsNullOrEmpty(origin) {
        span := span.SetTag(OriginTag, origin.value);
      }
      tracer.ActivateSpan(span);
    }

    /** `FinishSpan`: closes the active span when the gate is open, there is an active span
      * and its operation name is the one expected for the kind; otherwise changes nothing. */
    method FinishSpan(tracer: Tracer, e: Option<EventArgs>, spanKind: string)
      modifies tracer
      ensures !(initialized && ClosesActiveSpan(old(tracer.ActiveSpan()), spanKind)) ==> unchanged(tracer)
      ensures initialized && ClosesActiveSpan(old(tracer.ActiveSpan()), spanKind) ==>
        && tracer.scopes == old(tracer.scopes)[..|old(tracer.scopes)| - 1]
        && tracer.finished == old(tracer.finished)
             + [AttachFailure(old(tracer.ActiveSpan()).value, e).(finished := true)]
    {
      if !initialized {
        return;
      }
      var scope := tracer.ActiveSpan();
      if scope.None? {
        return;
      }
      var expectedSpanName := GetSpanName(spanKind);
      if expectedSpanName != scope.value.operationName {
        return;
      }
      var span := scope.value;
      match e {
        case Some(FailedResponseEvent(exception)) =>
          if exception.None? {
            span := span.SetException(exception);
          }
        case _ =>
      }
      tracer.UpdateActiveSpan(span);
      tracer.DisposeActiveScope();
    }

    /** `ServiceRemotingClientEvents_ReceiveResponse`. */
    method ClientReceiveResponseHandler(tracer: Tracer, e: Option<EventArgs>)
      modifies tracer
      ensures !(initialized && ClosesActiveSpan(old(tracer.ActiveSpan()), ClientKind)) ==> unchanged(tracer)
      ensures initialized && ClosesActiveSpan(old(tracer.ActiveSpan()), ClientKind) ==>
        && tracer.scopes == old(tracer.scopes)[..|old(tracer.scopes)| - 1]
        && tracer.finished == old(tracer.finished)
             + [AttachFailure(old(tracer.ActiveSpan()).value, e).(finished := true)]
    {
      if !initialized {
        return;
      }
      FinishSpan(tracer, e, ClientKind);
    }

    /** `ServiceRemotingServiceEvents_SendResponse`. */
    method ServiceSendResponseHandler(tracer: Tracer, e: Option<EventArgs>)
      modifies tracer
      ensures !(initialized && ClosesActiveSpan(old(tracer.ActiveSpan()), ServerKind)) ==> unchanged(tracer)
      ensures initialized && ClosesActiveSpan(old(tracer.ActiveSpan()), ServerKind) ==>
        && tracer.scopes == old(tracer.scopes)[..|old(tracer.scopes)| - 1]
        && tracer.finished == old(tracer.finished)
             + [AttachFailure(old(tracer.ActiveSpan()).value, e).(finished := true)]
    {
      if !initialized {
        return;
      }
      FinishSpan(tracer, e, ServerKind);
    }
  }
}
