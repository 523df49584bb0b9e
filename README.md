# Service Remoting tracing and the shared log formatter, in Dafny

This project models three pieces of the .NET tracer:

- **The trace-context codec of Service Remoting calls.** A caller writes its trace
  id, parent span id, sampling priority and origin into the request's binary
  headers, add-if-absent. The callee reads them back. Ids are 8-byte
  little-endian unsigned integers, the sampling priority is a 4-byte
  little-endian two's-complement integer, and the origin is UTF-8 text
  (modules `Bytes`, `Utf8`, `HeaderExtensions`, `Remoting`).
- **The span life cycle of the Service Remoting integration.** `StartTracing`
  runs its body once: it caches the analytics sample rates, subscribes the four
  event handlers and only then opens the gate. The send-request and
  receive-request handlers create and activate a span named
  `service-remoting.client` or `service-remoting.server`. The receive-response
  and send-response handlers close the active span, but only when its name
  matches the kind they expect (modules `Tracing`, `Remoting`).
- **The default log-line format and handler dispatch of the logging stub.**
  The format covers the error message, the `[timestamp | LEVEL | PId:...] `
  prefix, the component and message parts, and the `{[name]=value, ...}` data
  section. Dispatch sends error, info and debug events to handlers that can be
  reconfigured; debug events also need the debug switch to be on (modules
  `Decimal`, `Log`).

State that the source changes in place is modelled with classes:

- the request header with its header map (`HeaderExtensions.RequestMessageHeader`);
- the tracer's scope stack (`Tracing.Tracer`);
- the integration's static fields (`Remoting.RemotingIntegration`);
- the string buffer (`Log.StringBuilder`);
- the logger's handler slots (`Log.Logger`).

Each method's `ensures` ties the new state to a function of the old state.
The properties are proved about those functions. The main ones:

- inject-then-extract gives the context back;
- injection is idempotent;
- tracing is started once, however many times `StartTracing` is called;
- a finish handler closes exactly the spans of its own kind;
- a client span propagates to the server span;
- the data-section layout holds.

The model follows the code as written, including these quirks:

- When the client send handler gets no request header, it still creates and
  activates a span (`Remoting.cs:60-99`); only the injection is skipped. The
  resource name is `unknown` when the event is null or not a request event. A
  request event whose request or header is null keeps its request arguments
  (`Remoting.cs:215`, `225`), so the resource is `{serviceUrl}/unknown_method`.
- `CreateSpan` tests a local `methodName` that is always null at that point.
  So the method name it records, with event arguments, is always the header's
  numeric method id, or `unknown_method` when there is no header. The method
  name carried by the event arguments is never used (`Remoting.cs:309-326`).
  `Remoting.MethodNameOf` and `Remoting.CreateSpan` state this.
- `FinishSpan` calls `SetException` only when a failed response carries no
  exception (`Remoting.cs:386-393`). A carried exception is therefore never
  recorded, and a failed response without one marks the span as errored.
  `Remoting.AttachFailure` states this.
- The client analytics rate ignores the global analytics switch
  (`enabledWithGlobalSetting: false`, `Remoting.cs:39`). The server rate
  honours it.

The following are not part of this model: the tracer runtime (`Tracer`, `Span`,
`Span.SetException`, `SpanContext`), `HttpHeaderNames`, `Tags` and `SpanKinds`.
The model uses the tracer's well-known values for them:

- the headers `x-datadog-trace-id`, `x-datadog-parent-id`,
  `x-datadog-sampling-priority` and `x-datadog-origin`;
- the tags `_dd.origin` and `_dd1.sr.eausr`;
- the kinds `client` and `server`.

It also models the tracer's start-span rule: the span's parent is the given
context, or else the ambient active span, or else none. `SetException(null)`
is modelled as marking the span errored without recording an exception.

## Model

| member | source | states |
|---|---|---|
| Bytes.EncodeLE | src/Datadog.Trace.ServiceFabric/Remoting.cs:248-254 | `BitConverter.GetBytes` layout: exactly n bytes, least significant byte first |
| Bytes.DecodeLE | src/Datadog.Trace.ServiceFabric/ServiceRemotingRequestMessageHeaderExtensions.cs:24 | reading n little-endian bytes gives a value below 256^n |
| Bytes.DecodeEncodeLE | src/Datadog.Trace.ServiceFabric/ServiceRemotingRequestMessageHeaderExtensions.cs:30-38 | reading back the bytes written for x gives x |
| Bytes.EncodeDecodeLE | src/Datadog.Trace.ServiceFabric/ServiceRemotingRequestMessageHeaderExtensions.cs:30-38 | writing the value read from any bytes gives the same bytes: the codec is a bijection |
| Bytes.EncodeUInt64 | src/Datadog.Trace.ServiceFabric/Remoting.cs:248-250 | an id is written as 8 bytes |
| Bytes.DecodeUInt64 | src/Datadog.Trace.ServiceFabric/ServiceRemotingRequestMessageHeaderExtensions.cs:34 | `ToUInt64` over 8 bytes is the inverse of writing: re-encoding the result gives the input bytes |
| Bytes.DecodeEncodeUInt64 | src/Datadog.Trace.ServiceFabric/ServiceRemotingRequestMessageHeaderExtensions.cs:30-38 | every 64-bit id survives a write and a read |
| Bytes.EncodeInt32 | src/Datadog.Trace.ServiceFabric/Remoting.cs:254 | a sampling priority is written as 4 two's-complement bytes |
| Bytes.DecodeInt32 | src/Datadog.Trace.ServiceFabric/ServiceRemotingRequestMessageHeaderExtensions.cs:24 | `ToInt32` over 4 bytes is the inverse of writing, negative values included |
| Bytes.DecodeEncodeInt32 | src/Datadog.Trace.ServiceFabric/ServiceRemotingRequestMessageHeaderExtensions.cs:20-28 | every 32-bit priority, negative or not, survives a write and a read |
| Utf8.EncodeChar | src/Datadog.Trace.ServiceFabric/Remoting.cs:259 | a scalar value takes 1 to 4 bytes, and exactly one byte iff it is ASCII |
| Utf8.Encode | src/Datadog.Trace.ServiceFabric/Remoting.cs:259 | the encoding is at least as long as the text and non-empty for a non-empty text |
| Utf8.DecodeOne | src/Datadog.Trace.ServiceFabric/ServiceRemotingRequestMessageHeaderExtensions.cs:44 | decoding one character consumes between 1 and all of the available bytes |
| Utf8.Decode | src/Datadog.Trace.ServiceFabric/ServiceRemotingRequestMessageHeaderExtensions.cs:44 | decoding never yields more characters than there are bytes |
| Utf8.DecodeOneEncodeChar | src/Datadog.Trace.ServiceFabric/ServiceRemotingRequestMessageHeaderExtensions.cs:44 | the bytes of one encoded character decode to that character and consume exactly its length |
| Utf8.DecodeEncode | src/Datadog.Trace.ServiceFabric/ServiceRemotingRequestMessageHeaderExtensions.cs:40-48 | `GetString(GetBytes(s)) == s` for every string of Unicode scalar values |
| Decimal.NatToString | src/Datadog.Trace.ServiceFabric/Remoting.cs:317 | invariant-culture digits: non-empty, all digits, no leading zero except for 0 |
| Decimal.IntToString | src/Datadog.Trace.ServiceFabric/Remoting.cs:336-337 | well-formed integer text that starts with '-' iff the number is negative; its digits are pinned by `ParseIntToString` |
| Decimal.ParseNatToString | src/Shared-Src/Datadog.Logging/public/Log.tt.cs:320 | the decimal text of a non-negative n reads back as n under an independent parser |
| Decimal.ParseIntToString | src/Datadog.Trace.ServiceFabric/Remoting.cs:336-337 | the text of any integer, sign included, reads back as that integer |
| Decimal.IntToStringInjective | src/Datadog.Trace.ServiceFabric/Remoting.cs:317 | distinct method ids and interface ids give distinct texts |
| HeaderExtensions.TryGetHeaderValue | src/Datadog.Trace.ServiceFabric/Stubs.cs:30 | a value is found iff the header is present, and it is the stored bytes |
| HeaderExtensions.AddIfAbsent | src/Datadog.Trace.ServiceFabric/ServiceRemotingRequestMessageHeaderExtensions.cs:8-18 | the name becomes present, existing values are never overwritten, and a new name gets the given bytes |
| HeaderExtensions.AddIfAbsentIdempotent | src/Datadog.Trace.ServiceFabric/ServiceRemotingRequestMessageHeaderExtensions.cs:10-17 | a second add of the same name changes nothing: the first value wins |
| HeaderExtensions.TryGetHeaderValueInt32 | src/Datadog.Trace.ServiceFabric/ServiceRemotingRequestMessageHeaderExtensions.cs:20-28 | a value iff the header is present with exactly 4 bytes; the value is the one those bytes encode |
| HeaderExtensions.TryGetHeaderValueUInt64 | src/Datadog.Trace.ServiceFabric/ServiceRemotingRequestMessageHeaderExtensions.cs:30-38 | a value iff the header is present with exactly 8 bytes; the value is the one those bytes encode |
| HeaderExtensions.TryGetHeaderValueString | src/Datadog.Trace.ServiceFabric/ServiceRemotingRequestMessageHeaderExtensions.cs:40-48 | a text iff the header is present and non-empty; the text is the UTF-8 decoding of the stored bytes, non-empty and no longer than them |
| HeaderExtensions.Int32HeaderRoundTrip | src/Datadog.Trace.ServiceFabric/ServiceRemotingRequestMessageHeaderExtensions.cs:20-28 | a header written with a priority's 4 bytes reads back as that priority |
| HeaderExtensions.UInt64HeaderRoundTrip | src/Datadog.Trace.ServiceFabric/ServiceRemotingRequestMessageHeaderExtensions.cs:30-38 | a header written with an id's 8 bytes reads back as that id |
| HeaderExtensions.StringHeaderRoundTrip | src/Datadog.Trace.ServiceFabric/ServiceRemotingRequestMessageHeaderExtensions.cs:40-48 | a header written with a text's UTF-8 bytes reads back as that text, except that the empty text reads as null |
| HeaderExtensions.RequestMessageHeader.constructor | src/Datadog.Trace.ServiceFabric/Stubs.cs:17-32 | a request header holds its method id, interface id, invocation id and header map |
| HeaderExtensions.RequestMessageHeader.TryAddHeader | src/Datadog.Trace.ServiceFabric/ServiceRemotingRequestMessageHeaderExtensions.cs:8-18 | returns true iff the name was absent; the header map becomes the add-if-absent of the value computed from the context |
| Tracing.Span.GetTag | src/Datadog.Trace.ServiceFabric/Remoting.cs:80 | a tag is found iff it was set, and the value found is the one stored |
| Tracing.Span.SetTag | src/Datadog.Trace.ServiceFabric/Remoting.cs:161 | the tag reads back as the value; every other tag and every other field is unchanged |
| Tracing.Span.SetException | src/Datadog.Trace.ServiceFabric/Remoting.cs:392 | the span is errored and records the given exception; nothing else changes |
| Tracing.StartSpan | src/Datadog.Trace.ServiceFabric/Remoting.cs:341 | the new span is open and error-free, carries the name and tags; it joins the given context's trace as its child, else the active span's trace (inheriting its origin), else starts a new trace |
| Tracing.Tracer.constructor | src/Datadog.Trace.ServiceFabric/Remoting.cs:71 | a tracer starts with no active scope and no finished span |
| Tracing.Tracer.ActiveSpan | src/Datadog.Trace.ServiceFabric/Remoting.cs:367-374 | there is an active span iff a scope is open, and it is the innermost one |
| Tracing.Tracer.ActivateSpan | src/Datadog.Trace.ServiceFabric/Remoting.cs:91 | the span becomes the innermost active scope; finished spans are unchanged |
| Tracing.Tracer.UpdateActiveSpan | src/Datadog.Trace.ServiceFabric/Remoting.cs:390-393 | only the active span's record is replaced |
| Tracing.Tracer.DisposeActiveScope | src/Datadog.Trace.ServiceFabric/Remoting.cs:401 | the innermost scope is popped and its span is recorded as finished |
| Remoting.Injected | src/Datadog.Trace.ServiceFabric/Remoting.cs:239-266 | a zero trace or parent id leaves the headers alone; otherwise exactly the ids, a present priority and a non-empty origin are added, and nothing existing is overwritten |
| Remoting.InjectContext | src/Datadog.Trace.ServiceFabric/Remoting.cs:239-266 | the request header's map becomes the injected map of the context |
| Remoting.ExtractContext | src/Datadog.Trace.ServiceFabric/Remoting.cs:268-294 | a context iff both ids are present as 8 non-zero bytes; its ids are those bytes, and the priority and origin are what the typed readers return |
| Remoting.InjectExtractRoundTrip | src/Datadog.Trace.ServiceFabric/Remoting.cs:239-294 | extracting from freshly injected headers gives the context back, with an empty origin read as none |
| Remoting.InjectIdempotent | src/Datadog.Trace.ServiceFabric/Remoting.cs:239-266 | injecting the same context twice equals injecting it once |
| Remoting.ExtractNeedsBothIds | src/Datadog.Trace.ServiceFabric/Remoting.cs:272-287 | whatever other headers are present, a missing, malformed or zero id yields no context |
| Remoting.GetSpanName | src/Datadog.Trace.ServiceFabric/Remoting.cs:296-299 | the name is `service-remoting.` followed by the kind, split at a fixed position; its partner is `SpanNameInjective` |
| Remoting.SpanNameInjective | src/Datadog.Trace.ServiceFabric/Remoting.cs:296-299 | `service-remoting.{kind}` names are equal iff the kinds are |
| Remoting.GetMessageHeaders | src/Datadog.Trace.ServiceFabric/Remoting.cs:194-237 | request arguments iff a request event, and then they are the event's arguments and the request's header; no header without request arguments |
| Remoting.CreateSpan | src/Datadog.Trace.ServiceFabric/Remoting.cs:301-357 | name `service-remoting.{kind}`; resource `unknown`, or the URL (default `unknown_url`) and the method id (default `unknown_method`); method-id, interface-id and invocation-id tags from the header, all absent without one; the uri tag is the URL (default `unknown_url`) and the method-name tag the header's method id (default `unknown_method`), never the name the arguments carry, both absent without event arguments; the analytics tag iff a rate is cached for the kind; with a context, its trace, parent and sampling priority; without one, those of the active span and its origin tag, or a new trace when none is active |
| Remoting.GetAnalyticsSampleRate | src/Datadog.Trace.ServiceFabric/Remoting.cs:409-414 | the integration's rate iff its own flag is on, or it has none and both the global setting and the caller allow it |
| Remoting.StartTracingStep | src/Datadog.Trace.ServiceFabric/Remoting.cs:33-52 | the flag is always left 0; only the call that found it 1 caches both rates, subscribes the four handlers and opens the gate |
| Remoting.StartedGateIsStable | src/Datadog.Trace.ServiceFabric/Remoting.cs:36 | once the flag is 0, any further starts change nothing |
| Remoting.StartTracingRunsOnce | src/Datadog.Trace.ServiceFabric/Remoting.cs:33-52 | after any non-empty series of starts, the state is that of the first start: four subscriptions, gate open, first call's rates |
| Remoting.ServerRequestSpan | src/Datadog.Trace.ServiceFabric/Remoting.cs:128-169 | the server span is a child of the extracted context with its priority, carries the extracted origin as a tag iff it is non-empty, and has the server rate as its analytics tag |
| Remoting.ClientToServerPropagation | src/Datadog.Trace.ServiceFabric/Remoting.cs:73-83 | the server span created from headers a client span was injected into joins the client's trace as its child, with its sampling priority |
| Remoting.FinishPairsWithStart | src/Datadog.Trace.ServiceFabric/Remoting.cs:376-382 | a finish handler closes a span started by a handler of the same kind and no other |
| Remoting.AttachFailure | src/Datadog.Trace.ServiceFabric/Remoting.cs:386-393 | only a failed response with no exception marks the span as errored; every other event leaves it unchanged |
| Remoting.RemotingIntegration.constructor | src/Datadog.Trace.ServiceFabric/Remoting.cs:25-28 | flag 1, gate closed, no rates, no subscriptions |
| Remoting.RemotingIntegration.StartTracing | src/Datadog.Trace.ServiceFabric/Remoting.cs:33-52 | the new state is the one-time start step of the old state |
| Remoting.RemotingIntegration.ClientSendRequestHandler | src/Datadog.Trace.ServiceFabric/Remoting.cs:60-99 | closed gate: nothing changes; open gate: the client span is activated and, when there is a header, its trace id and span id are injected into it; only the header map of the request header may change, so its method id, interface id and invocation id are kept |
| Remoting.RemotingIntegration.ServiceReceiveRequestHandler | src/Datadog.Trace.ServiceFabric/Remoting.cs:121-175 | closed gate: nothing changes; open gate: the server span built under the extracted context is activated |
| Remoting.RemotingIntegration.FinishSpan | src/Datadog.Trace.ServiceFabric/Remoting.cs:359-407 | the active span is closed, with the failure step applied, iff the gate is open and its name matches the kind; otherwise nothing changes |
| Remoting.RemotingIntegration.ClientReceiveResponseHandler | src/Datadog.Trace.ServiceFabric/Remoting.cs:106-114 | closes the active span iff it is a client span and the gate is open |
| Remoting.RemotingIntegration.ServiceSendResponseHandler | src/Datadog.Trace.ServiceFabric/Remoting.cs:184-192 | closes the active span iff it is a server span and the gate is open |
| Log.ConstructErrorMessage | src/Shared-Src/Datadog.Logging/public/Log.tt.cs:150-175 | null iff both are null; one alone is returned as is; both give the message as a sentence followed by the exception |
| Log.ErrorMessageKeepsBoth | src/Shared-Src/Datadog.Logging/public/Log.tt.cs:152-161 | with both present, the message is kept whole, the exception follows it, and ". " separates them |
| Log.ComponentPart | src/Shared-Src/Datadog.Logging/public/Log.tt.cs:240-263 | the component part is empty iff all three name parts are null or white space |
| Log.ComponentPartShape | src/Shared-Src/Datadog.Logging/public/Log.tt.cs:242-263 | a non-empty component part ends in ": " and starts with the first part when that part is not blank |
| Log.MessagePart | src/Shared-Src/Datadog.Logging/public/Log.tt.cs:265-277 | empty iff the message is blank; otherwise the message closed as a sentence |
| Log.Quote | src/Shared-Src/Datadog.Logging/public/Log.tt.cs:336-355 | null shows as `null`; a non-string shows as its own text |
| Log.QuoteString | src/Shared-Src/Datadog.Logging/public/Log.tt.cs:344-349 | a string value is shown between double quotes with its text unchanged |
| Log.QuoteIfString | src/Shared-Src/Datadog.Logging/public/Log.tt.cs:336-355 | appends exactly the quoted form of the value |
| Log.PairsExtend | src/Shared-Src/Datadog.Logging/public/Log.tt.cs:282-302 | pairs that lie inside the array render the same when more values follow |
| Log.DataSectionAppendPair | src/Shared-Src/Datadog.Logging/public/Log.tt.cs:279-305 | adding a name and a value to an even-length array adds `, [name]=value` before the closing brace |
| Log.DataSectionOddName | src/Shared-Src/Datadog.Logging/public/Log.tt.cs:294-301 | a trailing name without a value is shown as `[name]=unspecified` |
| Log.AppendEventInfo | src/Shared-Src/Datadog.Logging/public/Log.tt.cs:233-306 | appends the component part, the message part and the data section, in that order |
| Log.GetProcIdInfoString | src/Shared-Src/Datadog.Logging/public/Log.tt.cs:308-334 | null iff there is no process id; otherwise ` \| PId:` followed by the id, left-padded with spaces to at least 6 characters |
| Log.AppendLogLinePrefix | src/Shared-Src/Datadog.Logging/public/Log.tt.cs:197-231 | appends `[`, the timestamp, ` UTC` in UTC form, ` \| LEVEL` when a level is given, the process-id field when known, then `] ` |
| Log.ConstructLogLine | src/Shared-Src/Datadog.Logging/public/Log.tt.cs:182-195 | a new buffer holding the prefix followed by the event info |
| Log.DefaultHandlerLine | src/Shared-Src/Datadog.Logging/public/Log.tt.cs:107-134 | the default handlers write local-time lines with their level moniker; the error handler formats the combined error message |
| Log.Logger.constructor | src/Shared-Src/Datadog.Logging/public/Log.tt.cs:399-402 | every slot starts with the default handler and debug logging on |
| Log.Logger.ConfigureError | src/Shared-Src/Datadog.Logging/public/Log.tt.cs:367-370 | the error slot holds the given handler, or none |
| Log.Logger.ConfigureInfo | src/Shared-Src/Datadog.Logging/public/Log.tt.cs:376-379 | the info slot holds the given handler, or none |
| Log.Logger.ConfigureDebug | src/Shared-Src/Datadog.Logging/public/Log.tt.cs:385-388 | the debug slot holds the given handler, or none |
| Log.Logger.ConfigureDebugLoggingEnabled | src/Shared-Src/Datadog.Logging/public/Log.tt.cs:393-396 | the debug switch holds the given value |
| Log.Logger.Error | src/Shared-Src/Datadog.Logging/public/Log.tt.cs:420-450 | the error handler is called once with the arguments iff one is set; otherwise nothing happens |
| Log.Logger.Info | src/Shared-Src/Datadog.Logging/public/Log.tt.cs:454-462 | the info handler is called once with the arguments iff one is set |
| Log.Logger.Debug | src/Shared-Src/Datadog.Logging/public/Log.tt.cs:468-478 | the debug handler is called once iff debug logging is enabled and a handler is set |

## Left out

- Concurrency: `Interlocked.Exchange` is modelled as one atomic step of a single thread. Handlers running at the same time are not modelled.
- Event subscription is recorded as a list of subscribed events. The runtime's event delivery and the `sender` argument are not modelled.
- Duck typing and runtime type names are modelled as the `EventArgs` cases. A cast that throws is not modelled.
- Exceptions thrown inside the handlers are not modelled, and neither are their catch-and-log paths or the `Log.Warning` calls.
- The analytics sample rate is a `double` formatted with `ToString(CultureInfo.InvariantCulture)`. The model holds it as text.
- Timestamps (`DateTimeOffset.Now`/`UtcNow` with their patterns), the process id and `Console.WriteLine` are I/O. The timestamp text and the process id are inputs, and the line is returned.
- Handlers are identified by value (`Handler`). A call to one is recorded as a `LogEvent`, and handler bodies other than the default handlers' line are not modelled.
- `Utf8.Decode`: each byte of an invalid sequence becomes one U+FFFD. .NET instead replaces each maximal invalid subpart. Valid input decodes the same under both rules.
- The origin is modelled as a sequence of Unicode scalar values. A .NET string is UTF-16, and text holding an unpaired surrogate, which `Encoding.UTF8.GetBytes` replaces by EF BF BD and so does not round-trip, is outside the model.
- `Bytes`: `BitConverter` is modelled as little-endian, which is the byte order on every platform the tracer runs on.
- The header's `MethodName` property and the response message headers are not used by the modelled code.
- The sampling priority taken from the span's trace context or its own context is one field, `samplingPriority`, of the span record.
- Tracer, Span, SpanContext, HttpHeaderNames, Tags and SpanKinds are not part of this model. The constants and the start-span rule above stand in for them.
- `Tracing.StartSpan`: id generation and the sampler are external. Their results come in as a `NewSpanIds` value.
- `Utf8.Decode`, `Utf8.Encode`: the contracts state lengths only. The round trip is `Utf8.DecodeEncode`.
