/** The gRPC traces adapter: one stored trace row per OTLP span. A span
    whose insert fails is logged and skipped; its siblings are still stored. */
module GrpcTraces {
  import opened Wrappers
  import opened GoInts
  import opened Otlp
  import opened Storage
  import opened Seqs

  /** A span `Status`; `code` is the enum's number. */
  datatype SpanStatus = SpanStatus(code: int)

  datatype Span = Span(
    traceId: seq<Byte>,
    spanId: seq<Byte>,
    parentSpanId: seq<Byte>,
    name: string,
    startTimeUnixNano: Uint64,
    endTimeUnixNano: Uint64,
    status: Option<SpanStatus>,
    attributes: seq<Option<KeyValue>>)

  datatype ScopeSpans = ScopeSpans(spans: seq<Span>)
  datatype ResourceSpans = ResourceSpans(resource: Option<Resource>, scopeSpans: seq<ScopeSpans>)
  datatype ExportRequest = ExportRequest(resourceSpans: seq<ResourceSpans>)

  const StatusCodeUnset: int := 0
  const StatusCodeOk: int := 1
  const StatusCodeError: int := 2

  /** `convertStatusCode`: a missing status is unset, the three known codes
      map to their names, and any other number is "UNKNOWN". */
  function ConvertStatusCode(status: Option<SpanStatus>): (r: string)
    ensures r in {"UNSET", "OK", "ERROR", "UNKNOWN"}
    ensures r == "UNSET" <==> status.None? || status.value.code == StatusCodeUnset
    ensures r == "OK" <==> status.Some? && status.value.code == StatusCodeOk
    ensures r == "ERROR" <==> status.Some? && status.value.code == StatusCodeError
  {
    match status
    case None => "UNSET"
    case Some(s) =>
      if s.code == StatusCodeUnset then "UNSET"
      else if s.code == StatusCodeOk then "OK"
      else if s.code == StatusCodeError then "ERROR"
      else "UNKNOWN"
  }

  /** `int64(end - start)` in `uint64` arithmetic: the difference modulo
      2^64, read as signed. */
  function DurationNanos(start: Uint64, end: Uint64): (d: int)
    ensures InInt64(d)
    ensures InInt64(end - start) ==> d == end - start
  {
    Wrap64((end - start) % TwoTo64)
  }

  /** A span that ends before it starts gets a negative duration: there is
      no clamping. */
  lemma NegativeDuration(start: Uint64, end: Uint64)
    requires end < start && start - end <= TwoTo63
    ensures DurationNanos(start, end) == end - start < 0
  {
  }

  /** The trace row `processSpan` builds. */
  function TraceRow(span: Span, service: string): (t: Trace)
    ensures t.parentSpanId.Some? <==> span.parentSpanId != []
    ensures t.parentSpanId.Some? ==> t.parentSpanId.value == BytesToString(span.parentSpanId)
    ensures t.traceId == BytesToString(span.traceId) && t.spanId == BytesToString(span.spanId)
    ensures t.startTime == FromUint64(span.startTimeUnixNano)
  {
    Trace(
      BytesToString(span.traceId),
      BytesToString(span.spanId),
      if |span.parentSpanId| > 0 then Some(BytesToString(span.parentSpanId)) else None,
      service,
      span.name,
      FromUint64(span.startTimeUnixNano),
      DurationNanos(span.startTimeUnixNano, span.endTimeUnixNano),
      Attributes(span.attributes),
      ConvertStatusCode(span.status))
  }

  /** What one span leaves in the traces table. */
  function SpanWritten(span: Span, service: string, rejected: set<Trace>): seq<Trace>
  {
    var row := StoredTrace(TraceRow(span, service));
    if row in rejected then [] else [row]
  }

  function SpanWrittenOf(service: string, rejected: set<Trace>): Span -> seq<Trace>
  {
    (span: Span) => SpanWritten(span, service, rejected)
  }

  function ScopeWrittenOf(service: string, rejected: set<Trace>): ScopeSpans -> seq<Trace>
  {
    (scope: ScopeSpans) => Concat(scope.spans, SpanWrittenOf(service, rejected))
  }

  function ResourceWritten(rs: ResourceSpans, rejected: set<Trace>): seq<Trace>
  {
    Concat(rs.scopeSpans, ScopeWrittenOf(ExtractServiceName(rs.resource), rejected))
  }

  function ResourceWrittenOf(rejected: set<Trace>): ResourceSpans -> seq<Trace>
  {
    (rs: ResourceSpans) => ResourceWritten(rs, rejected)
  }

  /** A span that the store accepts is stored even when a sibling before it
      failed. */
  lemma SiblingsKept(spans: seq<Span>, j: nat, service: string, rejected: set<Trace>)
    requires j < |spans| && StoredTrace(TraceRow(spans[j], service)) !in rejected
    ensures StoredTrace(TraceRow(spans[j], service)) in Concat(spans, SpanWrittenOf(service, rejected))
  {
    ConcatMember(spans, j, SpanWrittenOf(service, rejected), StoredTrace(TraceRow(spans[j], service)));
  }

  /** `processSpan`: build the row and insert it. */
  method ProcessSpan(store: Store, span: Span, service: string) returns (ok: bool)
    modifies store
    ensures ok <==> StoredTrace(TraceRow(span, service)) !in store.faults.traces
    ensures store.traces == old(store.traces) + SpanWritten(span, service, store.faults.traces)
    ensures store.metrics == old(store.metrics) && store.logs == old(store.logs)
  {
    var parent: Option<string> := None;
    if |span.parentSpanId| > 0 {
      parent := Some(BytesToString(span.parentSpanId));
    }
    var trace := Trace(
      BytesToString(span.traceId),
      BytesToString(span.spanId),
      parent,
      service,
      span.name,
      FromUint64(span.startTimeUnixNano),
      DurationNanos(span.startTimeUnixNano, span.endTimeUnixNano),
      Attributes(span.attributes),
      ConvertStatusCode(span.status));
    ok := store.InsertTrace(trace);
  }

  /** The span loop of one scope: a failing span is logged and skipped. */
  method ProcessScope(store: Store, scope: ScopeSpans, service: string)
    modifies store
    ensures store.traces == old(store.traces) + ScopeWrittenOf(service, store.faults.traces)(scope)
    ensures store.metrics == old(store.metrics) && store.logs == old(store.logs)
  {
    var rejected := store.faults.traces;
    var spans := scope.spans;
    for j := 0 to |spans|
      invariant store.traces == old(store.traces) + Concat(spans[..j], SpanWrittenOf(service, rejected))
      invariant store.metrics == old(store.metrics) && store.logs == old(store.logs)
    {
      var ok := ProcessSpan(store, spans[j], service);
      ConcatStep(old(store.traces), spans, j, SpanWrittenOf(service, rejected));
    }
    ConcatAll(spans, SpanWrittenOf(service, rejected));
  }

  /** `processResourceSpan`: every scope under the resource's service name. */
  method ProcessResourceSpan(store: Store, rs: ResourceSpans)
    modifies store
    ensures store.traces == old(store.traces) + ResourceWritten(rs, store.faults.traces)
    ensures store.metrics == old(store.metrics) && store.logs == old(store.logs)
  {
    var service := ExtractServiceName(rs.resource);
    var rejected := store.faults.traces;
    var scopes := rs.scopeSpans;
    for i := 0 to |scopes|
      invariant store.traces == old(store.traces) + Concat(scopes[..i], ScopeWrittenOf(service, rejected))
      invariant store.metrics == old(store.metrics) && store.logs == old(store.logs)
    {
      ProcessScope(store, scopes[i], service);
      ConcatStep(old(store.traces), scopes, i, ScopeWrittenOf(service, rejected));
    }
    ConcatAll(scopes, ScopeWrittenOf(service, rejected));
  }

  /** `Export`: a nil request is an invalid argument; otherwise every
      resource is processed and no span is reported rejected. */
  method Export(store: Store, req: Option<ExportRequest>) returns (r: Result<PartialSuccess, GrpcError>)
    modifies store
    ensures req.None? ==> r.Failure? && r.error.InvalidArgument? && store.traces == old(store.traces)
    ensures req.Some? ==> (r == Success(PartialSuccess(0, ""))
      && store.traces == old(store.traces) + Concat(req.value.resourceSpans, ResourceWrittenOf(store.faults.traces)))
    ensures store.metrics == old(store.metrics) && store.logs == old(store.logs)
  {
    if req.None? {
      return Failure(InvalidArgument("request cannot be nil"));
    }
    var rss := req.value.resourceSpans;
    var rejected := store.faults.traces;
    for i := 0 to |rss|
      invariant store.traces == old(store.traces) + Concat(rss[..i], ResourceWrittenOf(rejected))
      invariant store.metrics == old(store.metrics) && store.logs == old(store.logs)
    {
      ProcessResourceSpan(store, rss[i]);
      ConcatStep(old(store.traces), rss, i, ResourceWrittenOf(rejected));
    }
    ConcatAll(rss, ResourceWrittenOf(rejected));
    return Success(PartialSuccess(0, ""));
  }
}
