/** The OTLP/HTTP JSON ingestion handlers. A request binds to a nested
    resource → scope → record structure whose attribute values are plain
    strings; each handler flattens it into one row per span, data point or
    log record and inserts the rows one at a time. A failed insert is logged
    and the batch goes on; the reply is a success once the body has bound. */
module HttpIngestion {
  import opened Wrappers
  import opened GoInts
  import opened Assoc
  import opened Otlp
  import opened Storage
  import opened Seqs

  /** An attribute as the handlers bind it: only `value.stringValue` is read. */
  datatype StringKeyValue = StringKeyValue(key: string, value: string)
  datatype JsonResource = JsonResource(attributes: seq<StringKeyValue>)

  datatype JsonSpan = JsonSpan(
    traceId: string,
    spanId: string,
    parentSpanId: string,
    name: string,
    startTimeUnixNano: string,
    endTimeUnixNano: string,
    statusCode: string,
    attributes: seq<StringKeyValue>)
  datatype JsonScopeSpans = JsonScopeSpans(spans: seq<JsonSpan>)
  datatype JsonResourceSpans = JsonResourceSpans(resource: JsonResource, scopeSpans: seq<JsonScopeSpans>)
  datatype TracesRequest = TracesRequest(resourceSpans: seq<JsonResourceSpans>)

  datatype JsonDataPoint = JsonDataPoint(timeUnixNano: string, asDouble: real, attributes: seq<StringKeyValue>)
  /** A metric with its `data.gauge.dataPoints` and `data.sum.dataPoints`. */
  datatype JsonMetric = JsonMetric(name: string, gauge: seq<JsonDataPoint>, sum: seq<JsonDataPoint>)
  datatype JsonScopeMetrics = JsonScopeMetrics(metrics: seq<JsonMetric>)
  datatype JsonResourceMetrics = JsonResourceMetrics(resource: JsonResource, scopeMetrics: seq<JsonScopeMetrics>)
  datatype MetricsRequest = MetricsRequest(resourceMetrics: seq<JsonResourceMetrics>)

  /** A log record; `body` is its `body.stringValue`. */
  datatype JsonLogRecord = JsonLogRecord(
    timeUnixNano: string,
    severityText: string,
    body: string,
    attributes: seq<StringKeyValue>,
    traceId: string,
    spanId: string)
  datatype JsonScopeLogs = JsonScopeLogs(logRecords: seq<JsonLogRecord>)
  datatype JsonResourceLogs = JsonResourceLogs(resource: JsonResource, scopeLogs: seq<JsonScopeLogs>)
  datatype LogsRequest = LogsRequest(resourceLogs: seq<JsonResourceLogs>)

  /** An HTTP reply: the status code and the JSON object sent back. */
  datatype Response = Response(status: int, body: map<string, string>)

  const StatusOK: int := 200
  const StatusBadRequest: int := 400

  function BadRequest(message: string): Response { Response(StatusBadRequest, map["error" := message]) }
  const Accepted: Response := Response(StatusOK, map["status" := "success"])

  /** `time.Parse(time.RFC3339Nano, s)`: the instant, or `None` on a parse error. */
  type ParseTime = string -> Option<int>

  /** The handlers drop the parse error and keep the zero `time.Time`. */
  function TimeOrZero(parse: ParseTime, s: string): (t: int)
    ensures parse(s).None? ==> t == ZeroTime
    ensures parse(s).Some? ==> t == parse(s).value
  {
    match parse(s)
    case None => ZeroTime
    case Some(t) => t
  }

  // ---------------------------------------------------------------------
  // extractServiceNameFromResource

  /** The service a resource names: the value of its first `service.name`
      attribute, empty or not; "unknown" when there is none. */
  function ServiceNameOf(attrs: seq<StringKeyValue>): (name: string)
    ensures name == UnknownService
      || exists i :: 0 <= i < |attrs| && attrs[i].key == ServiceNameKey && attrs[i].value == name
    ensures attrs != [] && attrs[0].key == ServiceNameKey ==> name == attrs[0].value
  {
    if attrs == [] then UnknownService
    else if attrs[0].key == ServiceNameKey then attrs[0].value
    else ServiceNameOf(attrs[1..])
  }

  /** The first `service.name` attribute decides, whatever its value. */
  lemma {:induction false} FirstServiceNameWins(attrs: seq<StringKeyValue>, j: nat)
    requires j < |attrs| && attrs[j].key == ServiceNameKey
    requires forall i :: 0 <= i < j ==> attrs[i].key != ServiceNameKey
    ensures ServiceNameOf(attrs) == attrs[j].value
  {
    if j > 0 {
      assert attrs[0].key != ServiceNameKey;
      FirstServiceNameWins(attrs[1..], j - 1);
    }
  }

  /** Without a `service.name` attribute the service is "unknown". */
  lemma {:induction false} NoServiceName(attrs: seq<StringKeyValue>)
    requires forall i :: 0 <= i < |attrs| ==> attrs[i].key != ServiceNameKey
    ensures ServiceNameOf(attrs) == UnknownService
  {
    if attrs != [] {
      assert attrs[0].key != ServiceNameKey;
      NoServiceName(attrs[1..]);
    }
  }

  /** An empty first `service.name` is kept, unlike in the gRPC adapters. */
  lemma EmptyServiceNameKept()
    ensures ServiceNameOf([StringKeyValue(ServiceNameKey, ""), StringKeyValue(ServiceNameKey, "api")]) == ""
    ensures ExtractServiceName(Some(Resource([KeyValue(ServiceNameKey, StringValue("")), KeyValue(ServiceNameKey, StringValue("api"))]))) == "api"
  {
  }

  /** The linear search of `extractServiceNameFromResource`. */
  method ExtractServiceNameFromResource(resource: JsonResource) returns (name: string)
    ensures name == ServiceNameOf(resource.attributes)
  {
    var attrs := resource.attributes;
    for i := 0 to |attrs|
      invariant ServiceNameOf(attrs) == ServiceNameOf(attrs[i..])
    {
      assert attrs[i..][1..] == attrs[i + 1..];
      if attrs[i].key == ServiceNameKey {
        return attrs[i].value;
      }
    }
    return UnknownService;
  }

  // ---------------------------------------------------------------------
  // convertAttributesToJSON

  function StringEntries(attrs: seq<StringKeyValue>): (es: seq<Entry<AttrValue>>)
    ensures |es| == |attrs|
    ensures forall i :: 0 <= i < |attrs| ==> es[i] == Put(attrs[i].key, Str(attrs[i].value))
  {
    seq(|attrs|, i requires 0 <= i < |attrs| => Put(attrs[i].key, Str(attrs[i].value)))
  }

  /** The string map `convertAttributesToJSON` encodes; the empty list gives
      the empty object `{}`. */
  function StringAttributes(attrs: seq<StringKeyValue>): (m: map<string, AttrValue>)
    ensures attrs == [] ==> m == map[]
    ensures attrs != [] ==> var last := attrs[|attrs| - 1];
      last.key in m && m[last.key] == Str(last.value)
  {
    Assign(StringEntries(attrs))
  }

  /** Every attribute's key is present, and only those keys, each with a
      string value. */
  lemma StringAttributesKeys(attrs: seq<StringKeyValue>, k: string)
    ensures k in StringAttributes(attrs) <==> exists i :: 0 <= i < |attrs| && attrs[i].key == k
    ensures k in StringAttributes(attrs) ==> StringAttributes(attrs)[k].Str?
  {
    var es := StringEntries(attrs);
    AssignKeys(es, k);
    if k in StringAttributes(attrs) {
      var i :| 0 <= i < |es| && PutsKey(es[i], k);
      assert attrs[i].key == k;
      LastEntryWins(attrs, k);
    }
    if exists i :: 0 <= i < |attrs| && attrs[i].key == k {
      var i :| 0 <= i < |attrs| && attrs[i].key == k;
      assert PutsKey(es[i], k);
    }
  }

  /** A key that occurs in the list maps to its last occurrence's value. */
  lemma LastEntryWins(attrs: seq<StringKeyValue>, k: string)
    requires exists i :: 0 <= i < |attrs| && attrs[i].key == k
    ensures k in StringAttributes(attrs)
    ensures exists i :: (0 <= i < |attrs| && attrs[i].key == k && StringAttributes(attrs)[k] == Str(attrs[i].value)
      && forall j :: i < j < |attrs| ==> attrs[j].key != k)
  {
    var i :| 0 <= i < |attrs| && attrs[i].key == k;
    var last := LastIndexOfKey(attrs, k, i);
    StringAttributesLastWins(attrs, last);
  }

  /** The last index whose key is `k`, starting from a known one. */
  lemma LastIndexOfKey(attrs: seq<StringKeyValue>, k: string, i: nat) returns (last: nat)
    requires i < |attrs| && attrs[i].key == k
    ensures i <= last < |attrs| && attrs[last].key == k
    ensures forall j :: last < j < |attrs| ==> attrs[j].key != k
    decreases |attrs| - i
  {
    last := i;
    if exists j :: i < j < |attrs| && attrs[j].key == k {
      var j :| i < j < |attrs| && attrs[j].key == k;
      last := LastIndexOfKey(attrs, k, j);
    }
  }

  /** Later duplicates overwrite earlier ones. */
  lemma StringAttributesLastWins(attrs: seq<StringKeyValue>, i: nat)
    requires i < |attrs|
    requires forall j :: i < j < |attrs| ==> attrs[j].key != attrs[i].key
    ensures attrs[i].key in StringAttributes(attrs)
    ensures StringAttributes(attrs)[attrs[i].key] == Str(attrs[i].value)
  {
    AssignLastWins(StringEntries(attrs), i);
  }

  /** The map-filling loop of `convertAttributesToJSON`. */
  method ConvertAttributesToJSON(attrs: seq<StringKeyValue>) returns (m: map<string, AttrValue>)
    ensures m == StringAttributes(attrs)
  {
    if |attrs| == 0 {
      return map[];
    }
    m := map[];
    ghost var es := StringEntries(attrs);
    for i := 0 to |attrs|
      invariant m == Assign(es[..i])
    {
      assert es[..i + 1] == es[..i] + [es[i]];
      AssignSnoc(es[..i], es[i]);
      m := m[attrs[i].key := Str(attrs[i].value)];
    }
    assert es[..|attrs|] == es;
  }

  // ---------------------------------------------------------------------
  // Rows

  /** The trace row `HandleTraces` builds for a span. */
  function SpanRow(span: JsonSpan, service: string, parse: ParseTime): (t: Trace)
    ensures t.parentSpanId.Some? <==> span.parentSpanId != ""
    ensures t.parentSpanId.Some? ==> t.parentSpanId.value == span.parentSpanId
    ensures t.startTime == TimeOrZero(parse, span.startTimeUnixNano)
    ensures var d := TimeOrZero(parse, span.endTimeUnixNano) - t.startTime;
      (InInt64(d) ==> t.durationNanos == d)
      && (d > MaxInt64 ==> t.durationNanos == MaxInt64)
      && (d < MinInt64 ==> t.durationNanos == MinInt64)
  {
    var start := TimeOrZero(parse, span.startTimeUnixNano);
    var end := TimeOrZero(parse, span.endTimeUnixNano);
    Trace(
      span.traceId,
      span.spanId,
      if span.parentSpanId != "" then Some(span.parentSpanId) else None,
      service,
      span.name,
      start,
      Saturate64(end - start),
      StringAttributes(span.attributes),
      span.statusCode)
  }

  /** The metric row for one gauge or sum data point. */
  function PointRow(p: JsonDataPoint, name: string, service: string, parse: ParseTime): (m: Metric)
    ensures m.metricName == name && m.value == p.asDouble
    ensures parse(p.timeUnixNano).None? ==> m.timestamp == ZeroTime
    ensures p.attributes == [] ==> m.labels == map[]
  {
    Metric(TimeOrZero(parse, p.timeUnixNano), name, p.asDouble, StringAttributes(p.attributes), service)
  }

  /** The log row `HandleLogs` builds: the severity text is the level as it
      is, and the ids are set only when non-empty. */
  function LogRow(rec: JsonLogRecord, service: string, parse: ParseTime): (l: Log)
    ensures l.traceId.Some? <==> rec.traceId != ""
    ensures l.spanId.Some? <==> rec.spanId != ""
    ensures l.traceId.Some? ==> l.traceId.value == rec.traceId
    ensures l.spanId.Some? ==> l.spanId.value == rec.spanId
  {
    Log(
      TimeOrZero(parse, rec.timeUnixNano),
      service,
      rec.severityText,
      rec.body,
      StringAttributes(rec.attributes),
      if rec.traceId != "" then Some(rec.traceId) else None,
      if rec.spanId != "" then Some(rec.spanId) else None)
  }

  /** The level is not defaulted: an empty severity is stored empty, where
      the gRPC adapter stores "INFO". */
  lemma LevelNotDefaulted(rec: JsonLogRecord, service: string, parse: ParseTime)
    requires rec.severityText == ""
    ensures LogRow(rec, service, parse).level == ""
  {
  }

  // ---------------------------------------------------------------------
  // What a batch leaves in the store

  function SpanWritten(span: JsonSpan, service: string, parse: ParseTime, rejected: set<Trace>): seq<Trace>
  {
    var row := StoredTrace(SpanRow(span, service, parse));
    if row in rejected then [] else [row]
  }

  function SpanWrittenOf(service: string, parse: ParseTime, rejected: set<Trace>): JsonSpan -> seq<Trace>
  {
    (span: JsonSpan) => SpanWritten(span, service, parse, rejected)
  }

  function ScopeSpansWrittenOf(service: string, parse: ParseTime, rejected: set<Trace>): JsonScopeSpans -> seq<Trace>
  {
    (scope: JsonScopeSpans) => Concat(scope.spans, SpanWrittenOf(service, parse, rejected))
  }

  function ResourceSpansWritten(rs: JsonResourceSpans, parse: ParseTime, rejected: set<Trace>): seq<Trace>
  {
    Concat(rs.scopeSpans, ScopeSpansWrittenOf(ServiceNameOf(rs.resource.attributes), parse, rejected))
  }

  function ResourceSpansWrittenOf(parse: ParseTime, rejected: set<Trace>): JsonResourceSpans -> seq<Trace>
  {
    (rs: JsonResourceSpans) => ResourceSpansWritten(rs, parse, rejected)
  }

  function PointWritten(p: JsonDataPoint, name: string, service: string, parse: ParseTime, rejected: set<Metric>): seq<Metric>
  {
    var row := StoredMetric(PointRow(p, name, service, parse));
    if row in rejected then [] else [row]
  }

  function PointWrittenOf(name: string, service: string, parse: ParseTime, rejected: set<Metric>): JsonDataPoint -> seq<Metric>
  {
    (p: JsonDataPoint) => PointWritten(p, name, service, parse, rejected)
  }

  /** A metric's gauge points, then its sum points. */
  function MetricWritten(m: JsonMetric, service: string, parse: ParseTime, rejected: set<Metric>): seq<Metric>
  {
    Concat(m.gauge, PointWrittenOf(m.name, service, parse, rejected))
      + Concat(m.sum, PointWrittenOf(m.name, service, parse, rejected))
  }

  function MetricWrittenOf(service: string, parse: ParseTime, rejected: set<Metric>): JsonMetric -> seq<Metric>
  {
    (m: JsonMetric) => MetricWritten(m, service, parse, rejected)
  }

  function ScopeMetricsWrittenOf(service: string, parse: ParseTime, rejected: set<Metric>): JsonScopeMetrics -> seq<Metric>
  {
    (scope: JsonScopeMetrics) => Concat(scope.metrics, MetricWrittenOf(service, parse, rejected))
  }

  function ResourceMetricsWritten(rm: JsonResourceMetrics, parse: ParseTime, rejected: set<Metric>): seq<Metric>
  {
    Concat(rm.scopeMetrics, ScopeMetricsWrittenOf(ServiceNameOf(rm.resource.attributes), parse, rejected))
  }

  function ResourceMetricsWrittenOf(parse: ParseTime, rejected: set<Metric>): JsonResourceMetrics -> seq<Metric>
  {
    (rm: JsonResourceMetrics) => ResourceMetricsWritten(rm, parse, rejected)
  }

  function RecordWritten(rec: JsonLogRecord, service: string, parse: ParseTime, rejected: set<Log>): seq<Log>
  {
    var row := StoredLog(LogRow(rec, service, parse));
    if row in rejected then [] else [row]
  }

  function RecordWrittenOf(service: string, parse: ParseTime, rejected: set<Log>): JsonLogRecord -> seq<Log>
  {
    (rec: JsonLogRecord) => RecordWritten(rec, service, parse, rejected)
  }

  function ScopeLogsWrittenOf(service: string, parse: ParseTime, rejected: set<Log>): JsonScopeLogs -> seq<Log>
  {
    (scope: JsonScopeLogs) => Concat(scope.logRecords, RecordWrittenOf(service, parse, rejected))
  }

  function ResourceLogsWritten(rl: JsonResourceLogs, parse: ParseTime, rejected: set<Log>): seq<Log>
  {
    Concat(rl.scopeLogs, ScopeLogsWrittenOf(ServiceNameOf(rl.resource.attributes), parse, rejected))
  }

  function ResourceLogsWrittenOf(parse: ParseTime, rejected: set<Log>): JsonResourceLogs -> seq<Log>
  {
    (rl: JsonResourceLogs) => ResourceLogsWritten(rl, parse, rejected)
  }

  /** With every insert succeeding, a metric stores one row per gauge point,
      in order, and then one row per sum point. */
  lemma MetricLayout(m: JsonMetric, service: string, parse: ParseTime)
    ensures var rows := MetricWritten(m, service, parse, {});
      |rows| == |m.gauge| + |m.sum|
      && (forall i :: 0 <= i < |m.gauge| ==> rows[i] == StoredMetric(PointRow(m.gauge[i], m.name, service, parse)))
      && (forall i :: 0 <= i < |m.sum| ==> rows[|m.gauge| + i] == StoredMetric(PointRow(m.sum[i], m.name, service, parse)))
  {
    var f := PointWrittenOf(m.name, service, parse, {});
    ConcatSingles(m.gauge, f);
    ConcatSingles(m.sum, f);
  }

  /** With every insert succeeding, a scope stores one row per span, in order. */
  lemma SpansLayout(spans: seq<JsonSpan>, service: string, parse: ParseTime)
    ensures var rows := Concat(spans, SpanWrittenOf(service, parse, {}));
      |rows| == |spans| && forall i :: 0 <= i < |spans| ==> rows[i] == StoredTrace(SpanRow(spans[i], service, parse))
  {
    ConcatSingles(spans, SpanWrittenOf(service, parse, {}));
  }

  /** With every insert succeeding, a scope stores one row per log record, in order. */
  lemma RecordsLayout(recs: seq<JsonLogRecord>, service: string, parse: ParseTime)
    ensures var rows := Concat(recs, RecordWrittenOf(service, parse, {}));
      |rows| == |recs| && forall i :: 0 <= i < |recs| ==> rows[i] == StoredLog(LogRow(recs[i], service, parse))
  {
    ConcatSingles(recs, RecordWrittenOf(service, parse, {}));
  }

  /** A failed insert does not stop the batch: a span the store accepts is
      stored whatever happened to the spans before it. */
  lemma SpanKept(spans: seq<JsonSpan>, j: nat, service: string, parse: ParseTime, rejected: set<Trace>)
    requires j < |spans| && StoredTrace(SpanRow(spans[j], service, parse)) !in rejected
    ensures StoredTrace(SpanRow(spans[j], service, parse)) in Concat(spans, SpanWrittenOf(service, parse, rejected))
  {
    ConcatMember(spans, j, SpanWrittenOf(service, parse, rejected), StoredTrace(SpanRow(spans[j], service, parse)));
  }

  // ---------------------------------------------------------------------
  // The nested insert loops

  /** One span: build the row and insert it; a failure is only logged. */
  method IngestSpan(store: Store, span: JsonSpan, service: string, parse: ParseTime)
    modifies store
    ensures store.traces == old(store.traces) + SpanWritten(span, service, parse, store.faults.traces)
    ensures store.metrics == old(store.metrics) && store.logs == old(store.logs)
  {
    var startTime := TimeOrZero(parse, span.startTimeUnixNano);
    var endTime := TimeOrZero(parse, span.endTimeUnixNano);
    var attributes := ConvertAttributesToJSON(span.attributes);
    var trace := Trace(span.traceId, span.spanId, None, service, span.name, startTime,
      Saturate64(endTime - startTime), attributes, span.statusCode);
    if span.parentSpanId != "" {
      trace := trace.(parentSpanId := Some(span.parentSpanId));
    }
    var ok := store.InsertTrace(trace);
  }

  method IngestScopeSpans(store: Store, scope: JsonScopeSpans, service: string, parse: ParseTime)
    modifies store
    ensures store.traces == old(store.traces) + ScopeSpansWrittenOf(service, parse, store.faults.traces)(scope)
    ensures store.metrics == old(store.metrics) && store.logs == old(store.logs)
  {
    var rejected := store.faults.traces;
    var spans := scope.spans;
    for j := 0 to |spans|
      invariant store.traces == old(store.traces) + Concat(spans[..j], SpanWrittenOf(service, parse, rejected))
      invariant store.metrics == old(store.metrics) && store.logs == old(store.logs)
    {
      IngestSpan(store, spans[j], service, parse);
      ConcatStep(old(store.traces), spans, j, SpanWrittenOf(service, parse, rejected));
    }
    ConcatAll(spans, SpanWrittenOf(service, parse, rejected));
  }

  method IngestResourceSpans(store: Store, rs: JsonResourceSpans, parse: ParseTime)
    modifies store
    ensures store.traces == old(store.traces) + ResourceSpansWritten(rs, parse, store.faults.traces)
    ensures store.metrics == old(store.metrics) && store.logs == old(store.logs)
  {
    var service := ExtractServiceNameFromResource(rs.resource);
    var rejected := store.faults.traces;
    var scopes := rs.scopeSpans;
    for i := 0 to |scopes|
      invariant store.traces == old(store.traces) + Concat(scopes[..i], ScopeSpansWrittenOf(service, parse, rejected))
      invariant store.metrics == old(store.metrics) && store.logs == old(store.logs)
    {
      IngestScopeSpans(store, scopes[i], service, parse);
      ConcatStep(old(store.traces), scopes, i, ScopeSpansWrittenOf(service, parse, rejected));
    }
    ConcatAll(scopes, ScopeSpansWrittenOf(service, parse, rejected));
  }

  /** The resource loop of `HandleTraces`. */
  method IngestTraces(store: Store, req: TracesRequest, parse: ParseTime)
    modifies store
    ensures store.traces == old(store.traces) + Concat(req.resourceSpans, ResourceSpansWrittenOf(parse, store.faults.traces))
    ensures store.metrics == old(store.metrics) && store.logs == old(store.logs)
  {
    var rejected := store.faults.traces;
    var rss := req.resourceSpans;
    for i := 0 to |rss|
      invariant store.traces == old(store.traces) + Concat(rss[..i], ResourceSpansWrittenOf(parse, rejected))
      invariant store.metrics == old(store.metrics) && store.logs == old(store.logs)
    {
      IngestResourceSpans(store, rss[i], parse);
      ConcatStep(old(store.traces), rss, i, ResourceSpansWrittenOf(parse, rejected));
    }
    ConcatAll(rss, ResourceSpansWrittenOf(parse, rejected));
  }

  /** One data point: build the row and insert it; a failure is only logged. */
  method IngestPoint(store: Store, p: JsonDataPoint, name: string, service: string, parse: ParseTime)
    modifies store
    ensures store.metrics == old(store.metrics) + PointWritten(p, name, service, parse, store.faults.metrics)
    ensures store.traces == old(store.traces) && store.logs == old(store.logs)
  {
    var timestamp := TimeOrZero(parse, p.timeUnixNano);
    var labels := ConvertAttributesToJSON(p.attributes);
    var ok := store.InsertMetric(Metric(timestamp, name, p.asDouble, labels, service));
  }

  /** One of the two data-point loops of a metric. */
  method IngestPoints(store: Store, points: seq<JsonDataPoint>, name: string, service: string, parse: ParseTime)
    modifies store
    ensures store.metrics == old(store.metrics) + Concat(points, PointWrittenOf(name, service, parse, store.faults.metrics))
    ensures store.traces == old(store.traces) && store.logs == old(store.logs)
  {
    var rejected := store.faults.metrics;
    for j := 0 to |points|
      invariant store.metrics == old(store.metrics) + Concat(points[..j], PointWrittenOf(name, service, parse, rejected))
      invariant store.traces == old(store.traces) && store.logs == old(store.logs)
    {
      IngestPoint(store, points[j], name, service, parse);
      ConcatStep(old(store.metrics), points, j, PointWrittenOf(name, service, parse, rejected));
    }
    ConcatAll(points, PointWrittenOf(name, service, parse, rejected));
  }

  /** A metric: all its gauge points, then all its sum points. */
  method IngestMetric(store: Store, m: JsonMetric, service: string, parse: ParseTime)
    modifies store
    ensures store.metrics == old(store.metrics) + MetricWritten(m, service, parse, store.faults.metrics)
    ensures store.traces == old(store.traces) && store.logs == old(store.logs)
  {
    IngestPoints(store, m.gauge, m.name, service, parse);
    IngestPoints(store, m.sum, m.name, service, parse);
    AppendAssoc3(old(store.metrics),
      Concat(m.gauge, PointWrittenOf(m.name, service, parse, store.faults.metrics)),
      Concat(m.sum, PointWrittenOf(m.name, service, parse, store.faults.metrics)));
  }

  lemma AppendAssoc3<T>(a: seq<T>, b: seq<T>, c: seq<T>)
    ensures a + b + c == a + (b + c)
  {
  }

  method IngestScopeMetrics(store: Store, scope: JsonScopeMetrics, service: string, parse: ParseTime)
    modifies store
    ensures store.metrics == old(store.metrics) + ScopeMetricsWrittenOf(service, parse, store.faults.metrics)(scope)
    ensures store.traces == old(store.traces) && store.logs == old(store.logs)
  {
    var rejected := store.faults.metrics;
    var metrics := scope.metrics;
    for j := 0 to |metrics|
      invariant store.metrics == old(store.metrics) + Concat(metrics[..j], MetricWrittenOf(service, parse, rejected))
      invariant store.traces == old(store.traces) && store.logs == old(store.logs)
    {
      IngestMetric(store, metrics[j], service, parse);
      ConcatStep(old(store.metrics), metrics, j, MetricWrittenOf(service, parse, rejected));
    }
    ConcatAll(metrics, MetricWrittenOf(service, parse, rejected));
  }

  method IngestResourceMetrics(store: Store, rm: JsonResourceMetrics, parse: ParseTime)
    modifies store
    ensures store.metrics == old(store.metrics) + ResourceMetricsWritten(rm, parse, store.faults.metrics)
    ensures store.traces == old(store.traces) && store.logs == old(store.logs)
  {
    var service := ExtractServiceNameFromResource(rm.resource);
    var rejected := store.faults.metrics;
    var scopes := rm.scopeMetrics;
    for i := 0 to |scopes|
      invariant store.metrics == old(store.metrics) + Concat(scopes[..i], ScopeMetricsWrittenOf(service, parse, rejected))
      invariant store.traces == old(store.traces) && store.logs == old(store.logs)
    {
      IngestScopeMetrics(store, scopes[i], service, parse);
      ConcatStep(old(store.metrics), scopes, i, ScopeMetricsWrittenOf(service, parse, rejected));
    }
    ConcatAll(scopes, ScopeMetricsWrittenOf(service, parse, rejected));
  }

  /** The resource loop of `HandleMetrics`. */
  method IngestMetrics(store: Store, req: MetricsRequest, parse: ParseTime)
    modifies store
    ensures store.metrics == old(store.metrics) + Concat(req.resourceMetrics, ResourceMetricsWrittenOf(parse, store.faults.metrics))
    ensures store.traces == old(store.traces) && store.logs == old(store.logs)
  {
    var rejected := store.faults.metrics;
    var rms := req.resourceMetrics;
    for i := 0 to |rms|
      invariant store.metrics == old(store.metrics) + Concat(rms[..i], ResourceMetricsWrittenOf(parse, rejected))
      invariant store.traces == old(store.traces) && store.logs == old(store.logs)
    {
      IngestResourceMetrics(store, rms[i], parse);
      ConcatStep(old(store.metrics), rms, i, ResourceMetricsWrittenOf(parse, rejected));
    }
    ConcatAll(rms, ResourceMetricsWrittenOf(parse, rejected));
  }

  /** One log record: build the row and insert it; a failure is only logged. */
  method IngestLogRecord(store: Store, rec: JsonLogRecord, service: string, parse: ParseTime)
    modifies store
    ensures store.logs == old(store.logs) + RecordWritten(rec, service, parse, store.faults.logs)
    ensures store.metrics == old(store.metrics) && store.traces == old(store.traces)
  {
    var timestamp := TimeOrZero(parse, rec.timeUnixNano);
    var attributes := ConvertAttributesToJSON(rec.attributes);
    var row := Log(timestamp, service, rec.severityText, rec.body, attributes, None, None);
    if rec.traceId != "" {
      row := row.(traceId := Some(rec.traceId));
    }
    if rec.spanId != "" {
      row := row.(spanId := Some(rec.spanId));
    }
    var ok := store.InsertLog(row);
  }

  method IngestScopeLogs(store: Store, scope: JsonScopeLogs, service: string, parse: ParseTime)
    modifies store
    ensures store.logs == old(store.logs) + ScopeLogsWrittenOf(service, parse, store.faults.logs)(scope)
    ensures store.metrics == old(store.metrics) && store.traces == old(store.traces)
  {
    var rejected := store.faults.logs;
    var recs := scope.logRecords;
    for j := 0 to |recs|
      invariant store.logs == old(store.logs) + Concat(recs[..j], RecordWrittenOf(service, parse, rejected))
      invariant store.metrics == old(store.metrics) && store.traces == old(store.traces)
    {
      IngestLogRecord(store, recs[j], service, parse);
      ConcatStep(old(store.logs), recs, j, RecordWrittenOf(service, parse, rejected));
    }
    ConcatAll(recs, RecordWrittenOf(service, parse, rejected));
  }

  method IngestResourceLogs(store: Store, rl: JsonResourceLogs, parse: ParseTime)
    modifies store
    ensures store.logs == old(store.logs) + ResourceLogsWritten(rl, parse, store.faults.logs)
    ensures store.metrics == old(store.metrics) && store.traces == old(store.traces)
  {
    var service := ExtractServiceNameFromResource(rl.resource);
    var rejected := store.faults.logs;
    var scopes := rl.scopeLogs;
    for i := 0 to |scopes|
      invariant store.logs == old(store.logs) + Concat(scopes[..i], ScopeLogsWrittenOf(service, parse, rejected))
      invariant store.metrics == old(store.metrics) && store.traces == old(store.traces)
    {
      IngestScopeLogs(store, scopes[i], service, parse);
      ConcatStep(old(store.logs), scopes, i, ScopeLogsWrittenOf(service, parse, rejected));
    }
    ConcatAll(scopes, ScopeLogsWrittenOf(service, parse, rejected));
  }

  /** The resource loop of `HandleLogs`. */
  method IngestLogs(store: Store, req: LogsRequest, parse: ParseTime)
    modifies store
    ensures store.logs == old(store.logs) + Concat(req.resourceLogs, ResourceLogsWrittenOf(parse, store.faults.logs))
    ensures store.metrics == old(store.metrics) && store.traces == old(store.traces)
  {
    var rejected := store.faults.logs;
    var rls := req.resourceLogs;
    for i := 0 to |rls|
      invariant store.logs == old(store.logs) + Concat(rls[..i], ResourceLogsWrittenOf(parse, rejected))
      invariant store.metrics == old(store.metrics) && store.traces == old(store.traces)
    {
      IngestResourceLogs(store, rls[i], parse);
      ConcatStep(old(store.logs), rls, i, ResourceLogsWrittenOf(parse, rejected));
    }
    ConcatAll(rls, ResourceLogsWrittenOf(parse, rejected));
  }

  // ---------------------------------------------------------------------
  // The service

  /** The ingestion service; its handlers write to `storage`. The request
      body arrives already bound: `Failure(message)` is a body that did not
      bind as JSON. */
  class Service {
    const storage: Store

    constructor(storage: Store)
      ensures this.storage == storage
    {
      this.storage := storage;
    }

    /** `HandleTraces`: 400 and nothing stored when the body does not bind;
        otherwise every span is inserted in nesting order and the reply is
        a success, whatever inserts failed. */
    method HandleTraces(req: Result<TracesRequest, string>, parse: ParseTime) returns (resp: Response)
      modifies storage
      ensures req.Failure? ==> resp == BadRequest(req.error) && storage.traces == old(storage.traces)
      ensures req.Success? ==> (resp == Accepted
        && storage.traces == old(storage.traces) + Concat(req.value.resourceSpans, ResourceSpansWrittenOf(parse, storage.faults.traces)))
      ensures storage.metrics == old(storage.metrics) && storage.logs == old(storage.logs)
    {
      if req.Failure? {
        return BadRequest(req.error);
      }
      IngestTraces(storage, req.value, parse);
      return Accepted;
    }

    /** `HandleMetrics`: like `HandleTraces`, one row per gauge or sum point. */
    method HandleMetrics(req: Result<MetricsRequest, string>, parse: ParseTime) returns (resp: Response)
      modifies storage
      ensures req.Failure? ==> resp == BadRequest(req.error) && storage.metrics == old(storage.metrics)
      ensures req.Success? ==> (resp == Accepted
        && storage.metrics == old(storage.metrics) + Concat(req.value.resourceMetrics, ResourceMetricsWrittenOf(parse, storage.faults.metrics)))
      ensures storage.traces == old(storage.traces) && storage.logs == old(storage.logs)
    {
      if req.Failure? {
        return BadRequest(req.error);
      }
      IngestMetrics(storage, req.value, parse);
      return Accepted;
    }

    /** `HandleLogs`: like `HandleTraces`, one row per log record. */
    method HandleLogs(req: Result<LogsRequest, string>, parse: ParseTime) returns (resp: Response)
      modifies storage
      ensures req.Failure? ==> resp == BadRequest(req.error) && storage.logs == old(storage.logs)
      ensures req.Success? ==> (resp == Accepted
        && storage.logs == old(storage.logs) + Concat(req.value.resourceLogs, ResourceLogsWrittenOf(parse, storage.faults.logs)))
      ensures storage.metrics == old(storage.metrics) && storage.traces == old(storage.traces)
    {
      if req.Failure? {
        return BadRequest(req.error);
      }
      IngestLogs(storage, req.value, parse);
      return Accepted;
    }
  }
}
