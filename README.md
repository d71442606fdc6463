# Open-Telemorph-Prime core, modelled in Dafny

Open-Telemorph-Prime is a telemetry backend. Its core does four things, and this project models all four.

- **OTLP ingestion.** It accepts OpenTelemetry traces, metrics and logs two ways: over gRPC (`backend/internal/grpc`) and as JSON over HTTP. There are two near-identical HTTP services, `backend/internal/ingestion` and the older `internal/ingestion`. Both ingestion paths turn each batch into rows of a metrics, a traces and a logs table.
- **Storage.** It keeps those rows in SQLite (`backend/internal/storage/sqlite.go`). It lists them newest first with `LIMIT`/`OFFSET`, lists the services that occur, and purges rows older than the retention period.
- **Queries.** It answers a small subset of PromQL (`backend/internal/query`):
  - a string parser;
  - an evaluator that groups rows into series and applies `rate`, `increase`, `sum`, `avg`, `count`, `min` and `max`;
  - a function registry;
  - the HTTP handler that reshapes results into Prometheus' JSON layout.
- **Configuration and the web API.** It fills in configuration defaults (`backend/internal/config`). The web API (`backend/internal/web`) serves paginated listings, dispatches queries, and formats durations and byte sizes.

How the model represents these:

- **Tables.** The three tables are `seq` fields of a `Storage.Store` class.
  - `Insert*` appends the row, as it is stored, unless the row is in the store's set of rows the database rejects. That set is how an insert error is modelled.
  - The ingestion loops are methods over that store. Each is proved to leave exactly the rows that a specification function describes, in order. Lemmas then state the layout promised for each kind of record.
- **Time and values.** Timestamps are integers in nanoseconds. Sample values are `real`s.
- **Attributes.** OTLP attributes become `Otlp.AttrValue` trees held in maps. They are not JSON text.
- **Outside functions.** `time.Now`, `time.Parse(time.RFC3339Nano, …)`, `time.ParseDuration` and `json.Marshal` become parameters.
- **Go integers.** Where the Go code converts or overflows, the model wraps or saturates explicitly, as `int64`, `uint64` or `int32`.
- **Series order.** Go visits maps in random order. Where that order reaches the output, the model proves properties that hold for every order, or fixes one order and says so below.

Where the project's own description of the system and its code disagree, the model follows the code:

- An aggregation's `by (…)` clause is never recognised. See `PromqlParser.AggregatedNeverGroups`.
- A span that ends before it starts gets a negative duration; nothing clamps it.
- The gRPC log adapter defaults an empty severity to `INFO` but does not upper-case it. The HTTP adapters default nothing.
- The HTTP adapters accept an empty `service.name`.
- `increase` subtracts the *latest* point at or before the window start, not the earliest.
- A negative `limit` or `offset` reaches SQLite unchanged.

## Model

| member | source | states |
|---|---|---|
| GoInts.Wrap64 | backend/internal/grpc/metrics.go:93 | `int64(x)` keeps a value in range and otherwise wraps it modulo 2^64 into the `int64` range |
| GoInts.Saturate64 | backend/internal/ingestion/service.go:160 | `time.Time.Sub` clamps a difference outside the `Duration` range to its nearer end, and keeps one inside it |
| GoInts.Wrap32 | backend/internal/grpc/logs.go:131 | `int32(n)` is the value congruent to `n` modulo 2^32 in the signed 32-bit range |
| GoInts.ZeroTimeUnixNano | backend/internal/storage/sqlite.go:163 | the zero `time.Time` stores the wrapped `UnixNano()` value -6795364578871345152 |
| GoInts.FromUint64 | backend/internal/grpc/metrics.go:93 | a wire `uint64` timestamp reads as itself up to 2^63-1 and as itself minus 2^64 above |
| GoInts.UnixSeconds | backend/internal/query/promql/functions.go:344 | `Time.Unix()` is the whole second at or before the instant, also for instants before 1970 |
| GoInts.UnixNano | backend/internal/storage/sqlite.go:163 | `Time.UnixNano()` is the instant itself when it fits in `int64`, and otherwise the `int64` value congruent to it modulo 2^64 |
| GoStrings.TrimSpace | backend/internal/query/promql/parser.go:37 | the result is no longer than the input and neither starts nor ends with white space |
| GoStrings.TrimSpaceEmpty | backend/internal/query/promql/parser.go:37-40 | trimming gives "" exactly when the text is all white space, so such a query is empty |
| GoStrings.TrimSpaceInfix | backend/internal/query/promql/parser.go:37 | the trimmed text is a slice of the input with only white space cut from both ends |
| GoStrings.TrimSpaceKeeps | backend/internal/query/promql/parser.go:37 | a character that is not white space occurs after trimming exactly when it occurs before |
| GoStrings.TrimSpaceNoOp | backend/internal/query/promql/parser.go:37 | text that starts and ends with a non-space character is left as it is |
| GoStrings.TrimSpaceIdempotent | backend/internal/query/promql/parser.go:37 | trimming twice is trimming once |
| GoStrings.Index | backend/internal/query/promql/parser.go:62 | the first position of the character, or -1 exactly when it does not occur |
| GoStrings.LastIndex | backend/internal/query/promql/parser.go:70 | the last position of the character, or -1 exactly when it does not occur |
| GoStrings.IndexAt | backend/internal/query/promql/parser.go:62 | a position holding the character with no earlier occurrence is what `strings.Index` returns |
| GoStrings.LastIndexAt | backend/internal/query/promql/parser.go:70 | a position holding the character with no later occurrence is what `strings.LastIndex` returns |
| GoStrings.Split | backend/internal/query/promql/parser.go:166 | at least one piece, and no piece holds the separator |
| GoStrings.SplitJoin | backend/internal/query/promql/parser.go:166 | joining the pieces with the separator gives the input back |
| GoStrings.SplitNone | backend/internal/query/promql/parser.go:166 | text without the separator splits into itself alone |
| GoStrings.Atoi | backend/internal/query/promql/parser.go:203 | success only for an optional sign followed by decimal digits, with a value that fits in `int64` |
| GoStrings.AtoiLenient | backend/internal/web/service.go:35-36 | `strconv.Atoi` with its error dropped: an accepted number reads as itself; a rejected text reads 0, except that a run of leading digits whose value reaches 2^64 reads as the `int64` bound of its sign, as Go checks overflow before the next byte; an all-digit text saturates |
| GoStrings.AtoiLenientOverflowFirst | backend/internal/web/service.go:35-36 | digits worth 2^64 or more followed by junk read as `MaxInt64`, and with a leading `-` as `MinInt64`, not as 0 |
| GoStrings.LeadingDigits | backend/internal/web/service.go:35-36 | the length of the run of digits that `ParseUint` reads before it meets the first other byte |
| GoStrings.AtoiDigits | backend/internal/query/promql/parser.go:203 | a run of digits whose value fits reads as its decimal value |
| GoStrings.AtoiItoa | backend/internal/query/promql/parser.go:203 | printing a non-negative `int64` and reading it back gives it back |
| GoStrings.AtoiSmall | backend/internal/query/promql/parser.go:203 | "5" is 5, "-12" is -12, and "5m" and "" are rejected |
| Order.SortStrings | backend/internal/query/promql/functions.go:180 | `sort.Strings`: the result is sorted and a permutation of the input |
| Order.InsertString | backend/internal/query/promql/functions.go:180 | one insertion step of the string sort keeps the list sorted and adds exactly the one string |
| Order.InsertUnique | backend/internal/storage/sqlite.go:321-327 | inserting into a strictly sorted list keeps it strictly sorted and adds exactly the one name |
| Order.SortBy | backend/internal/storage/sqlite.go:175 | `ORDER BY`: the rows sorted by the key, as a permutation of the table |
| Otlp.BytesToString | backend/internal/grpc/traces.go:72-73 | `string(bytes)` has one character per byte, with that byte's value |
| Otlp.StringOf | backend/internal/grpc/metrics.go:258-262 | `GetStringValue()` is the string of a string value and "" for anything else |
| Otlp.ConvertAttributeValue | backend/internal/grpc/metrics.go:312-345 | nil or unset values become null; arrays keep their length; a kvlist becomes a map over exactly its keys |
| Otlp.KvEntries | backend/internal/grpc/metrics.go:332-340 | the kvlist loop assigns each entry's converted value under its key, in order |
| Otlp.ArrayElements | backend/internal/grpc/metrics.go:325-331 | array elements convert one by one, in order, nil elements included |
| Otlp.ScalarsKept | backend/internal/grpc/metrics.go:317-324 | string, bool, int and double values are carried over unchanged |
| Otlp.AttributeEntry | backend/internal/grpc/metrics.go:292-300 | an attribute is stored exactly when it is non-nil and its value does not convert to nil |
| Otlp.AttributeEntries | backend/internal/grpc/metrics.go:291-301 | one assignment per attribute, in list order |
| Otlp.ConvertAttributes | backend/internal/grpc/metrics.go:284-310 | the loop builds exactly the attribute map of the list |
| Otlp.AttributesKeys | backend/internal/grpc/metrics.go:284-310 | a key is present exactly when a non-nil attribute with a non-nil value names it |
| Otlp.AttributesLastWins | backend/internal/grpc/metrics.go:292-300 | a later duplicate key overwrites an earlier one |
| Otlp.FirstServiceName | backend/internal/grpc/metrics.go:258-264 | the position of the first `service.name` attribute with a non-empty string value; none before it qualifies |
| Otlp.ExtractServiceName | backend/internal/grpc/metrics.go:253-267 | a nil resource gives "unknown"; otherwise the first non-empty `service.name` value, or "unknown" |
| Otlp.ServiceNameIn | backend/internal/grpc/traces.go:92-106 | the same rule over a resource's attribute list |
| Otlp.ServiceNameNonEmpty | backend/internal/grpc/metrics.go:253-267 | the extracted service name is never empty |
| Otlp.NumericValue | backend/internal/grpc/metrics.go:269-282 | a double as is, an integer converted, 0 when unset |
| Otlp.ThroughJson | backend/internal/grpc/metrics.go:348-362 | after a JSON round trip, integers are doubles at every depth and nothing else changes shape |
| Otlp.ThroughJsonDecoded | backend/internal/grpc/metrics.go:348-362 | values already in decoded form survive the round trip unchanged |
| Otlp.ThroughJsonIdempotent | backend/internal/grpc/metrics.go:348-362 | a second JSON round trip changes nothing |
| Otlp.AddLabelKeeps | backend/internal/grpc/metrics.go:347-364 | `addBucketLabel` sets or overwrites only its label; the other keys keep their values, and no key is added |
| Storage.Page | backend/internal/storage/sqlite.go:176 | a page never holds more rows than a non-negative limit |
| Storage.PageWindow | backend/internal/storage/sqlite.go:176 | the page is the run of rows after the skipped ones, as long as the limit allows and the rows last |
| Storage.PageSorted | backend/internal/storage/sqlite.go:172-201 | a page of a sorted listing is sorted and holds only rows of the table |
| Storage.MetricsNewestFirst | backend/internal/storage/sqlite.go:172-201 | listed metrics are newest first and come from the table |
| Storage.Since | backend/internal/storage/sqlite.go:338 | a purge keeps exactly the rows at or after the cutoff |
| Storage.SinceIdempotent | backend/internal/storage/sqlite.go:331-347 | purging twice with the same cutoff removes nothing the second time |
| Storage.SinceKeepsAll | backend/internal/storage/sqlite.go:331-347 | with no row before the cutoff, a purge leaves the table as it is |
| Storage.Cutoff | backend/internal/storage/sqlite.go:332 | the cutoff is `retentionDays` days before now, in `UnixNano()` form: always in `int64` range, and exact when the difference fits |
| Storage.DataDir | backend/internal/storage/sqlite.go:140-156 | the directory is the text before the last `/`; there is none when no `/` occurs or the only one leads |
| Storage.Store.constructor | backend/internal/storage/sqlite.go:84-138 | a fresh store has three empty tables |
| Storage.Store.InsertMetric | backend/internal/storage/sqlite.go:158-170 | appends exactly the stored row unless the database rejects it; the other tables are unchanged |
| Storage.Store.InsertTrace | backend/internal/storage/sqlite.go:203-220 | appends exactly the stored span unless the database rejects it; the other tables are unchanged |
| Storage.Store.InsertLog | backend/internal/storage/sqlite.go:255-269 | appends exactly the stored record unless the database rejects it; the other tables are unchanged |
| Storage.Store.GetMetrics | backend/internal/storage/sqlite.go:172-201 | the page of the table sorted newest first |
| Storage.Store.GetTraces | backend/internal/storage/sqlite.go:222-253 | the page of the table sorted by start time, newest first |
| Storage.Store.GetLogs | backend/internal/storage/sqlite.go:271-301 | the page of the table sorted newest first |
| Storage.Store.GetServices | backend/internal/storage/sqlite.go:303-328 | strictly ascending, and a name is listed exactly when it is non-empty and occurs in some table |
| Storage.Store.CleanupOldData | backend/internal/storage/sqlite.go:331-347 | metrics, traces and logs are purged in that order; the first failing delete stops the rest, and success means all three ran |
| GrpcMetrics.NumberPointsLayout | backend/internal/grpc/metrics.go:88-120 | gauge and sum metrics give one row per point, under the metric's name, with the point's value, time, attributes and service |
| GrpcMetrics.Row | backend/internal/grpc/metrics.go:90-96 | a row carries the given name, value, service and labels; its time is the wire time read as `int64`, exact up to 2^63-1 |
| GrpcMetrics.MetricRows | backend/internal/grpc/metrics.go:69-86 | no data gives no rows; a gauge or a sum gives one row per point |
| GrpcMetrics.HistogramLayout | backend/internal/grpc/metrics.go:122-170 | `HistogramRows` gives one `_count` row with the count, then `_sum` with the sum when it is present and non-zero, then for each bucket that has a bound a `_bucket` row with its count, labelled `le` with that bound; every row carries the point's time and service |
| GrpcMetrics.ExponentialHistogramLayout | backend/internal/grpc/metrics.go:172-203 | only `_count` and an optional non-zero `_sum` are stored |
| GrpcMetrics.SummaryLayout | backend/internal/grpc/metrics.go:205-251 | `_count`, then `_sum` when non-zero, then one `_quantile` row per quantile carrying a `quantile` label |
| GrpcMetrics.SummaryRows | backend/internal/grpc/metrics.go:205-251 | one `_count` row carrying the count, one `_sum` row when the sum is non-zero, and one row per quantile |
| GrpcMetrics.UnknownKindNoRows | backend/internal/grpc/metrics.go:82-84 | an unknown data kind writes nothing |
| GrpcMetrics.Accepted | backend/internal/grpc/metrics.go:95-100 | the rows inserted before the first rejected one |
| GrpcMetrics.AcceptedAppend | backend/internal/grpc/metrics.go:95-100 | early return composes: nothing after a rejected row is inserted |
| GrpcMetrics.WrittenAppendRejected | backend/internal/grpc/metrics.go:95-100 | rows after a rejected one are never written |
| GrpcMetrics.WrittenAppendAll | backend/internal/grpc/metrics.go:95-100 | after a fully written prefix come the writes of the rest |
| GrpcMetrics.WrittenAll | backend/internal/grpc/metrics.go:95-100 | with no row rejected, every row is written in order |
| GrpcMetrics.InsertRows | backend/internal/grpc/metrics.go:128-168 | a point's rows are inserted until the first failure, which is reported |
| GrpcMetrics.ProcessPoints | backend/internal/grpc/metrics.go:88-103 | a metric's point loop writes the rows before the first rejected one and reports whether all were written |
| GrpcMetrics.ProcessMetric | backend/internal/grpc/metrics.go:69-86 | dispatch on the data kind writes exactly that kind's rows up to the first failure |
| GrpcMetrics.ProcessScope | backend/internal/grpc/metrics.go:57-64 | a failing metric is logged and the following metrics are still processed |
| GrpcMetrics.ProcessResourceMetric | backend/internal/grpc/metrics.go:52-67 | every scope is written under the resource's service name |
| GrpcMetrics.Export | backend/internal/grpc/metrics.go:31-50 | a nil request is an invalid argument and writes nothing; otherwise every resource is written and no point is reported rejected |
| GrpcTraces.ConvertStatusCode | backend/internal/grpc/traces.go:108-123 | nil and UNSET give "UNSET", OK gives "OK", ERROR gives "ERROR", and anything else gives "UNKNOWN" |
| GrpcTraces.DurationNanos | backend/internal/grpc/traces.go:77 | end minus start read as `int64`; exact when that fits |
| GrpcTraces.NegativeDuration | backend/internal/grpc/traces.go:77 | a span that ends before it starts gets a negative duration, with no clamping |
| GrpcTraces.TraceRow | backend/internal/grpc/traces.go:69-90 | the parent id is set exactly when its bytes are non-empty; ids are the raw bytes; the start time is the wire time |
| GrpcTraces.SiblingsKept | backend/internal/grpc/traces.go:57-64 | a span the store accepts is stored even when a sibling before it failed |
| GrpcTraces.ProcessSpan | backend/internal/grpc/traces.go:69-90 | inserts the span's row and reports whether the store accepted it |
| GrpcTraces.ProcessScope | backend/internal/grpc/traces.go:57-64 | a failing span is logged and skipped |
| GrpcTraces.ProcessResourceSpan | backend/internal/grpc/traces.go:52-67 | every scope is written under the resource's service name |
| GrpcTraces.Export | backend/internal/grpc/traces.go:31-50 | a nil request is an invalid argument; otherwise every resource is written and no span is reported rejected |
| GrpcLogs.ConvertSeverityText | backend/internal/grpc/logs.go:110-115 | an empty severity becomes "INFO"; any other text is kept unchanged |
| GrpcLogs.RuneString | backend/internal/grpc/logs.go:131 | `string(rune(n))` is exactly one character: the code point `int32(n)` when that is a Unicode scalar value, U+FFFD otherwise |
| GrpcLogs.ExtractLogBody | backend/internal/grpc/logs.go:117-161 | nil, unset and nil-collection bodies give ""; a string as is; a bool as "true"/"false"; an integer as the one character `string(rune(i))`; a double as the character of its truncation; an array or kvlist as the JSON text of its converted value |
| GrpcLogs.Truncate | backend/internal/grpc/logs.go:133 | `rune(d)` drops the fraction toward zero: the result is within one of `d` on the side of zero |
| GrpcLogs.JsonText | backend/internal/grpc/logs.go:140-144 | an array or kvlist body is its JSON text, and "" when encoding fails |
| GrpcLogs.NumberBodyIsCodePoint | backend/internal/grpc/logs.go:130-133 | an integer body that is a scalar value is the character with that code point; a double body is the character of its truncation toward zero |
| GrpcLogs.CollectionBodyIsJson | backend/internal/grpc/logs.go:134-157 | an array or kvlist body is the marshalled text of its converted value, and "" when marshalling fails |
| GrpcLogs.IntBodyIsRune | backend/internal/grpc/logs.go:131 | the integer 65 gives "A", not "65"; -1 gives U+FFFD; the conversion wraps to 32 bits |
| GrpcLogs.LogRow | backend/internal/grpc/logs.go:69-92 | trace and span ids are set exactly when their bytes are non-empty; the level is never empty |
| GrpcLogs.SiblingsKept | backend/internal/grpc/logs.go:57-64 | a record the store accepts is stored even when a sibling before it failed |
| GrpcLogs.ProcessLogRecord | backend/internal/grpc/logs.go:69-92 | inserts the record's row and reports whether the store accepted it |
| GrpcLogs.ProcessScope | backend/internal/grpc/logs.go:57-64 | a failing record is logged and skipped |
| GrpcLogs.ProcessResourceLog | backend/internal/grpc/logs.go:52-67 | every scope is written under the resource's service name |
| GrpcLogs.Export | backend/internal/grpc/logs.go:31-50 | a nil request is an invalid argument; otherwise every resource is written and no record is reported rejected |
| HttpIngestion.TimeOrZero | backend/internal/ingestion/service.go:151-152 | an unparsable time becomes the zero `time.Time` |
| HttpIngestion.PointRow | backend/internal/ingestion/service.go:237-245 | a data point becomes a row with the metric name and `asDouble`; an unparsable time is the zero time; no attributes give no labels |
| HttpIngestion.FirstServiceNameWins | backend/internal/ingestion/service.go:343-358 | the first `service.name` attribute decides, whatever its value |
| HttpIngestion.ServiceNameOf | backend/internal/ingestion/service.go:343-358 | the name is "unknown" or the value of some `service.name` attribute, and a leading `service.name` attribute decides |
| HttpIngestion.NoServiceName | backend/internal/ingestion/service.go:357 | without a `service.name` attribute the service is "unknown" |
| HttpIngestion.EmptyServiceNameKept | backend/internal/ingestion/service.go:351-355 | an empty first `service.name` is kept, where the gRPC rule would skip it |
| HttpIngestion.ExtractServiceNameFromResource | backend/internal/ingestion/service.go:343-358 | the linear search returns the service-name rule's value |
| HttpIngestion.StringEntries | backend/internal/ingestion/service.go:371-373 | one string assignment per attribute, in order |
| HttpIngestion.StringAttributes | backend/internal/ingestion/service.go:360-381 | no attributes give the empty map; the last attribute always ends up with its value as a string |
| HttpIngestion.StringAttributesKeys | backend/internal/ingestion/service.go:360-381 | exactly the attributes' keys are present, each with a string value |
| HttpIngestion.LastEntryWins | backend/internal/ingestion/service.go:371-373 | a key maps to the value of its last occurrence |
| HttpIngestion.StringAttributesLastWins | backend/internal/ingestion/service.go:371-373 | later duplicates overwrite earlier ones |
| HttpIngestion.ConvertAttributesToJSON | backend/internal/ingestion/service.go:360-381 | the loop builds exactly the string map of the attributes; an empty list gives `{}` |
| HttpIngestion.SpanRow | backend/internal/ingestion/service.go:151-167 | the parent id is set exactly when non-empty; the duration is end minus start, saturated to the `int64` range |
| HttpIngestion.LogRow | backend/internal/ingestion/service.go:315-330 | the ids are set exactly when non-empty |
| HttpIngestion.LevelNotDefaulted | backend/internal/ingestion/service.go:320 | an empty severity is stored empty; there is no "INFO" default |
| HttpIngestion.MetricLayout | backend/internal/ingestion/service.go:236-265 | one row per gauge point, in order, then one row per sum point |
| HttpIngestion.SpansLayout | backend/internal/ingestion/service.go:150-172 | one row per span, in order |
| HttpIngestion.RecordsLayout | backend/internal/ingestion/service.go:314-335 | one row per log record, in order |
| HttpIngestion.SpanKept | backend/internal/ingestion/service.go:169-171 | a failed insert does not stop the batch: an accepted span is stored whatever happened before it |
| HttpIngestion.IngestSpan | backend/internal/ingestion/service.go:151-171 | one span's row is inserted; a failure is only logged |
| HttpIngestion.IngestScopeSpans | backend/internal/ingestion/service.go:150-172 | the span loop of one scope |
| HttpIngestion.IngestResourceSpans | backend/internal/ingestion/service.go:146-173 | every scope under the resource's service name |
| HttpIngestion.IngestTraces | backend/internal/ingestion/service.go:146-174 | the resource loop writes every resource's spans in nesting order |
| HttpIngestion.IngestPoint | backend/internal/ingestion/service.go:237-248 | one point's row is inserted; a failure is only logged |
| HttpIngestion.IngestPoints | backend/internal/ingestion/service.go:236-249 | one data-point loop |
| HttpIngestion.IngestMetric | backend/internal/ingestion/service.go:234-266 | all gauge points, then all sum points |
| HttpIngestion.IngestScopeMetrics | backend/internal/ingestion/service.go:233-267 | the metric loop of one scope |
| HttpIngestion.IngestResourceMetrics | backend/internal/ingestion/service.go:230-268 | every scope under the resource's service name |
| HttpIngestion.IngestMetrics | backend/internal/ingestion/service.go:230-268 | the resource loop of `HandleMetrics` |
| HttpIngestion.IngestLogRecord | backend/internal/ingestion/service.go:315-334 | one record's row is inserted; a failure is only logged |
| HttpIngestion.IngestScopeLogs | backend/internal/ingestion/service.go:313-336 | the record loop of one scope |
| HttpIngestion.IngestResourceLogs | backend/internal/ingestion/service.go:310-337 | every scope under the resource's service name |
| HttpIngestion.IngestLogs | backend/internal/ingestion/service.go:310-337 | the resource loop of `HandleLogs` |
| HttpIngestion.Service.constructor | backend/internal/ingestion/service.go:25-30 | the service writes to the given store |
| HttpIngestion.Service.HandleTraces | backend/internal/ingestion/service.go:107-177 | an unbindable body gives 400 and stores nothing; otherwise every span is written in nesting order and the reply is success |
| HttpIngestion.Service.HandleMetrics | backend/internal/ingestion/service.go:179-271 | an unbindable body gives 400 and stores nothing; otherwise gauge then sum rows per metric, and success |
| HttpIngestion.Service.HandleLogs | backend/internal/ingestion/service.go:273-340 | an unbindable body gives 400 and stores nothing; otherwise one row per record, and success |
| LegacyIngestion.SameServiceNameRule | internal/ingestion/service.go:401-419 | the first key equal to `semconv.ServiceNameKey` ("service.name") decides, even when its value is empty |
| LegacyIngestion.Service.constructor | internal/ingestion/service.go:29-35 | the service writes to the given store |
| LegacyIngestion.Service.HandleTraces | internal/ingestion/service.go:149-223 | 400 with nothing stored on a bad body; otherwise one row per span in nesting order, failures only logged, and success |
| LegacyIngestion.Service.HandleMetrics | internal/ingestion/service.go:225-325 | 400 with nothing stored on a bad body; otherwise gauge rows then sum rows per metric, and success |
| LegacyIngestion.Service.HandleLogs | internal/ingestion/service.go:327-398 | 400 with nothing stored on a bad body; otherwise the level passes through and ids are set only when non-empty |
| PromqlParser.Parse | backend/internal/query/promql/parser.go:36-57 | the query is empty exactly when it is all white space; no parse yields an offset or an aggregation; a trimmed query holding `(` and `)` is its function parse, otherwise one holding `{` is its selector parse |
| PromqlParser.ParseFunction | backend/internal/query/promql/parser.go:60-90 | no `(` is invalid syntax; the parse fails on the close paren exactly when the last `)` is not after the first `(`; otherwise it is the call between the first `(` and the last `)` |
| PromqlParser.FunctionCall | backend/internal/query/promql/parser.go:76-89 | succeeds exactly when the trimmed argument parses as a range selector, whose error it wraps otherwise; the query is then that selector's name and labels, the trimmed text before `(` as function, and the range |
| PromqlParser.CallQuery | backend/internal/query/promql/parser.go:60-90 | `f(arg)` with no `(` in `f` is `f` applied to the range selector `arg`, whatever parentheses `arg` holds |
| PromqlParser.ParseMetricWithRange | backend/internal/query/promql/parser.go:93-123 | no `[` is the selector parse with range 0; a `[` without `]` is an error; a `]` before the `[` is a slice panic; otherwise the trimmed selector before `[` with the trimmed duration inside |
| PromqlParser.RangedMetric | backend/internal/query/promql/parser.go:110-122 | the selector's error comes first, then the duration's wrapped as an invalid range; success carries both values |
| PromqlParser.RangeQuery | backend/internal/query/promql/parser.go:93-123 | `metric[range]` with no bracket in the metric and no `]` in the range parses to the metric's selector and the range's duration, or the first error |
| PromqlParser.ParseMetricWithLabels | backend/internal/query/promql/parser.go:126-155 | no `{` gives the trimmed name with no labels; a `{` without `}` is an error; a `}` before the `{` is a slice panic; otherwise the trimmed name before `{` with the labels of the trimmed selector, or their error |
| PromqlParser.SelectorQuery | backend/internal/query/promql/parser.go:126-155 | `name{selector}` with no brace in the name and no `}` in the selector parses to the trimmed name and the selector's labels, or their error |
| PromqlParser.Unquote | backend/internal/query/promql/parser.go:183-185 | double quotes are stripped only when present at both ends |
| PromqlParser.PairEntry | backend/internal/query/promql/parser.go:167-187 | blank pieces are skipped; a piece without `=` is an error naming it |
| PromqlParser.PairEntryShape | backend/internal/query/promql/parser.go:174-187 | `k=v` gives key `k` and value `v`, both trimmed and the value unquoted |
| PromqlParser.PairEntries | backend/internal/query/promql/parser.go:167-188 | every piece's entry in order, or the error of the first invalid piece |
| PromqlParser.LabelsOf | backend/internal/query/promql/parser.go:158-191 | an empty selector gives no labels; it fails exactly when some piece is invalid, naming the first |
| PromqlParser.LabelsLaterPairWins | backend/internal/query/promql/parser.go:187 | a later pair for the same key overwrites an earlier one |
| PromqlParser.LabelsFailAt | backend/internal/query/promql/parser.go:175-176 | the first invalid piece decides the error |
| PromqlParser.ParsePair | backend/internal/query/promql/parser.go:168-187 | the loop body for one piece computes its entry |
| PromqlParser.ParseLabels | backend/internal/query/promql/parser.go:158-191 | the loop computes the selector's label map or its error |
| PromqlParser.Scaled | backend/internal/query/promql/parser.go:202-219 | success exactly when the count reads as a number; the count times the unit when that fits in `int64` |
| PromqlParser.ParseDuration | backend/internal/query/promql/parser.go:194-230 | an empty or all-space duration is the only "empty duration" error |
| PromqlParser.InDays | backend/internal/query/promql/parser.go:220-225 | the `d` suffix succeeds exactly when the count is a number |
| PromqlParser.UnitSuffix | backend/internal/query/promql/parser.go:202-219 | trimmed text ending in `s`, `m` or `h` is scaled by that unit |
| PromqlParser.DaySuffix | backend/internal/query/promql/parser.go:220-225 | trimmed text ending in `d` is that many 24-hour days |
| PromqlParser.DurationWithUnit | backend/internal/query/promql/parser.go:196-225 | a decimal count with one of `s`/`m`/`h`/`d` is that many units, whatever `time.ParseDuration` does |
| PromqlParser.DurationFiveMinutes | backend/internal/query/promql/parser.go:208-213 | `5m` is 300 seconds |
| PromqlParser.DurationMillisRejected | backend/internal/query/promql/parser.go:202-206 | `5ms` fails because `s` is tested first and "5m" is not a number |
| PromqlParser.ByClauseText | backend/internal/query/promql/parser.go:262-268 | text with no `)` yields no `by` clause |
| PromqlParser.ByClauseAlwaysEmpty | backend/internal/query/promql/parser.go:245-270 | after the last `)` there is never a `by` clause |
| PromqlParser.GroupingLabels | backend/internal/query/promql/parser.go:273-279 | no labels for an empty clause, otherwise one trimmed label per comma piece |
| PromqlParser.ParseAggregation | backend/internal/query/promql/parser.go:233-287 | no `(` is invalid syntax, no `)` a missing paren, a last `)` before the first `(` a slice panic; otherwise the parse of the trimmed inner text, with the aggregation of the trimmed operation before `(` and no grouping labels attached |
| PromqlParser.AggregationAt | backend/internal/query/promql/parser.go:245-286 | with both parentheses found, the inner parse's error or its query under the operation, with no grouping labels |
| PromqlParser.Aggregated | backend/internal/query/promql/parser.go:259-286 | the inner error, then the `by` clause's error, comes first; otherwise the inner query with the aggregation of the operation and the clause's grouping labels |
| PromqlParser.AggregatedNeverGroups | backend/internal/query/promql/parser.go:245-284 | an aggregation never carries grouping labels: it succeeds exactly when the inner query does, with no `by` labels |
| PromqlParser.ParsePlainName | backend/internal/query/promql/parser.go:47-53 | a query with no `(`…`)` pair and no `{` is its trimmed text as a bare metric name |
| PromqlParser.ParseTrims | backend/internal/query/promql/parser.go:37 | surrounding white space never changes the parse |
| PromqlParser.PairServiceApi | backend/internal/query/promql/parser.go:174-186 | the piece `service="api"` is the label `service` with the unquoted value `api` |
| PromqlParser.LabelsServiceApi | backend/internal/query/promql/parser.go:158-191 | the selector `service="api"` is the one label `service` = `api` |
| PromqlParser.SelectorExample | backend/internal/query/promql/parser.go:126-155 | `http_requests_total{service="api"}` is that name with that one label |
| PromqlParser.RangeExample | backend/internal/query/promql/parser.go:93-123 | the same selector followed by `[5m]` has a range of 300 seconds |
| PromqlParser.SelectorPanics | backend/internal/query/promql/parser.go:129-143 | `a}b{` has its `}` before its `{`, so the label slice panics |
| PromqlParser.RangePanics | backend/internal/query/promql/parser.go:96-108 | `x]y[` has its `]` before its `[`, so the range slice panics |
| PromqlParser.ArgumentPanics | backend/internal/query/promql/parser.go:60-108 | `rate(x]y[)` panics inside the argument parse |
| PromqlParser.RateExample | backend/internal/query/promql/parser.go:36-123 | the whole query `rate(http_requests_total{service="api"}[5m])` parses to that name and label, the function `rate` and a 300-second range, with no offset or aggregation |
| PromqlSeries.SeriesKeyIgnoresOrder | backend/internal/query/promql/evaluator.go:149-156 | equal label maps give equal keys, whatever order the map is visited in |
| PromqlSeries.ServiceKey | backend/internal/query/promql/evaluator.go:149-156 | a fetched row's key is `[service=<name>]` |
| PromqlSeries.ServiceKeyInjective | backend/internal/query/promql/evaluator.go:118-129 | rows of different services never share a series |
| PromqlSeries.Filter | backend/internal/query/promql/evaluator.go:75-89 | a row is selected exactly when it matches the name, the bounds and every label filter |
| PromqlSeries.Fetch | backend/internal/query/promql/evaluator.go:75-93 | exactly the matching rows, in ascending time |
| PromqlSeries.IndexOfLabels | backend/internal/query/promql/evaluator.go:121 | the first series carrying the labels, or none |
| PromqlSeries.GroupPartitions | backend/internal/query/promql/evaluator.go:100-137 | one series per service, named after the metric, labelled only `service`, holding exactly that service's points in row order |
| PromqlSeries.AddRowKeeps | backend/internal/query/promql/evaluator.go:118-136 | one step of the row loop keeps the grouping exact |
| PromqlSeries.PointsOfAscending | backend/internal/query/promql/evaluator.go:91 | rows in ascending time give each service its points in ascending time |
| PromqlSeries.GroupAscending | backend/internal/query/promql/evaluator.go:91-137 | every grouped series has its points in ascending time |
| PromqlWindows.RangeStart | backend/internal/query/promql/evaluator.go:198 | `point.Timestamp.Add(-rangeDuration)` is the point's time minus the range, except at a range of `MinInt64`, whose `int64` negation is itself, so the window starts 2^63 ns before the point |
| PromqlWindows.LastAfter | backend/internal/query/promql/evaluator.go:201-206 | the backward scan finds the last earlier point after the window start; every point after it up to `j` is not in the window |
| PromqlWindows.RateAt | backend/internal/query/promql/evaluator.go:193-217 | a point is emitted only after the first, and it carries the time and labels of its input point |
| PromqlWindows.Rate | backend/internal/query/promql/evaluator.go:181-224 | one output series per input series, with the same name and labels |
| PromqlWindows.RateUsesPrevious | backend/internal/query/promql/evaluator.go:192-218 | on ascending points, `rate` emits at `j` exactly when point `j-1` is after the window start `RangeStart`, with the value difference over the time difference in seconds |
| PromqlWindows.RateSkipsFirst | backend/internal/query/promql/evaluator.go:193-195 | the first point never has a rate |
| PromqlWindows.RatePointsBelow | backend/internal/query/promql/evaluator.go:214-218 | no rate point is later than the latest input point it is computed from |
| PromqlWindows.RatePointsFromInput | backend/internal/query/promql/evaluator.go:192-218 | every rate point carries the time and labels of an input point other than the first |
| PromqlWindows.RatePointsAscending | backend/internal/query/promql/evaluator.go:192-218 | rate points keep the input's time order |
| PromqlWindows.LastAtOrBefore | backend/internal/query/promql/evaluator.go:243-248 | the backward scan finds the last point at or before the window start |
| PromqlWindows.IncreaseAt | backend/internal/query/promql/evaluator.go:239-256 | an emitted point carries the time and labels of its input point |
| PromqlWindows.Increase | backend/internal/query/promql/evaluator.go:227-262 | one output series per input series, with the same name and labels |
| PromqlWindows.IncreaseEmitsIff | backend/internal/query/promql/evaluator.go:238-256 | emits at `j` exactly when some point up to `j` is at or before the window start `RangeStart`, and subtracts the latest such point |
| PromqlWindows.MinRangeWindow | backend/internal/query/promql/evaluator.go:198-256 | at a range of `MinInt64`, on ascending non-negative times, `rate` emits at every point after the first and `increase` emits nothing |
| PromqlWindows.IncreaseZeroRange | backend/internal/query/promql/evaluator.go:243-256 | with a zero range every point emits an increase of 0 |
| PromqlWindows.IncreasePointsBelow | backend/internal/query/promql/evaluator.go:250-256 | no increase point is later than the latest input point it is computed from |
| PromqlWindows.IncreasePointsFromInput | backend/internal/query/promql/evaluator.go:238-256 | every increase point carries the time and labels of an input point |
| PromqlWindows.IncreasePointsAscending | backend/internal/query/promql/evaluator.go:238-256 | increase points keep the input's time order |
| PromqlAggregates.Times | backend/internal/query/promql/evaluator.go:271-284 | the collected timestamps are strictly ascending |
| PromqlAggregates.TimesMembers | backend/internal/query/promql/evaluator.go:271-284 | a time is collected exactly when some point carries it |
| PromqlAggregates.FirstIndexAt | backend/internal/query/promql/evaluator.go:291-296 | the inner scan stops at the first point at the time |
| PromqlAggregates.Sum | backend/internal/query/promql/evaluator.go:265-311 | empty input comes back unchanged; otherwise one unlabelled series named after the first |
| PromqlAggregates.Avg | backend/internal/query/promql/evaluator.go:314-367 | empty input comes back unchanged; otherwise one unlabelled series named after the first |
| PromqlAggregates.ObservedIff | backend/internal/query/promql/evaluator.go:272-276 | a time is among all points exactly when some series has a point there |
| PromqlAggregates.SumTimes | backend/internal/query/promql/evaluator.go:279-304 | sum and avg points are strictly ascending in time, and cover exactly the observed times |
| PromqlAggregates.AvgNeverEmpty | backend/internal/query/promql/evaluator.go:351-353 | every averaged time has a contributing series, so the 0 fallback never fires |
| PromqlAggregates.AvgIsMean | backend/internal/query/promql/evaluator.go:337-353 | the average times the count of contributing series is the sum |
| PromqlAggregates.SumTakesFirstPoint | backend/internal/query/promql/evaluator.go:291-296 | a series contributes its first point at a time, not a later one |
| PromqlAggregates.Count | backend/internal/query/promql/evaluator.go:370-377 | one series "count" with one point at `now` whose value is the number of series, 0 included |
| PromqlAggregates.MinOf | backend/internal/query/promql/evaluator.go:385-392 | the running minimum is at most every point |
| PromqlAggregates.MaxOf | backend/internal/query/promql/evaluator.go:407-414 | the running maximum is at least every point |
| PromqlAggregates.MinAttained | backend/internal/query/promql/evaluator.go:385-392 | the minimum is the value of some point |
| PromqlAggregates.MaxAttained | backend/internal/query/promql/evaluator.go:407-414 | the maximum is the value of some point |
| PromqlAggregates.Min | backend/internal/query/promql/evaluator.go:380-399 | empty input comes back unchanged; otherwise one unlabelled series with one point at `now` |
| PromqlAggregates.Max | backend/internal/query/promql/evaluator.go:402-421 | empty input comes back unchanged; otherwise one unlabelled series with one point at `now` |
| PromqlAggregates.MinBounds | backend/internal/query/promql/evaluator.go:380-399 | the reported minimum is some input point's value and no point is below it |
| PromqlAggregates.MaxBounds | backend/internal/query/promql/evaluator.go:402-421 | the reported maximum is some input point's value and no point is above it |
| PromqlEvaluator.FunctionResult | backend/internal/query/promql/evaluator.go:159-178 | fails exactly for names outside rate, increase, sum, avg, count, min, max, naming the function |
| PromqlEvaluator.AggregationResult | backend/internal/query/promql/evaluator.go:424-439 | fails exactly for operations outside sum, avg, count, min, max |
| PromqlEvaluator.Evaluation | backend/internal/query/promql/evaluator.go:66-69 | a result is always reported as a "vector" |
| PromqlEvaluator.EvaluatePlain | backend/internal/query/promql/evaluator.go:43-70 | with neither a function nor an aggregation, the fetched series come back as they are |
| PromqlEvaluator.EvaluateUnsupportedFunction | backend/internal/query/promql/evaluator.go:51-56 | an unknown function fails the evaluation, wrapped with its name |
| PromqlEvaluator.EvaluateUnsupportedAggregation | backend/internal/query/promql/evaluator.go:59-64 | an unknown aggregation fails once the function step has passed |
| PromqlEvaluator.EvaluateRateAscending | backend/internal/query/promql/evaluator.go:45-56 | `rate` over fetched series succeeds and gives points in ascending time |
| PromqlEvaluator.SecondsBoundsMissRow | backend/internal/query/promql/evaluator.go:83 | as written, a row stored inside the query window is not fetched |
| PromqlEvaluator.NanosecondBoundsKeepRow | backend/internal/query/promql/evaluator.go:83 | with nanosecond bounds, every matching row in the window reaches its service's series |
| PromqlEvaluator.LookupHit | backend/internal/query/promql/evaluator.go:121 | a key in `seriesMap` leads to the series of its labels |
| PromqlEvaluator.LookupMiss | backend/internal/query/promql/evaluator.go:122-129 | a key missing from `seriesMap` has no series yet |
| PromqlEvaluator.SingleLabelKey | backend/internal/query/promql/evaluator.go:113-118 | a fetched row's key is its service key, whatever the visiting order |
| PromqlEvaluator.KeysIndexOpen | backend/internal/query/promql/evaluator.go:122-129 | opening a series under a new key keeps `seriesMap` an index of the series |
| PromqlEvaluator.KeysIndexAppend | backend/internal/query/promql/evaluator.go:132-136 | appending a point keeps `seriesMap` an index |
| PromqlEvaluator.Evaluator.constructor | backend/internal/query/promql/evaluator.go:38-41 | the evaluator reads the given store |
| PromqlEvaluator.Evaluator.CreateSeriesKey | backend/internal/query/promql/evaluator.go:149-156 | the key of the labels for some order of visiting the map |
| PromqlEvaluator.Evaluator.GetMetricSeries | backend/internal/query/promql/evaluator.go:73-146 | the series of the matching rows, grouped by service in first-seen order |
| PromqlEvaluator.Evaluator.AddToGroup | backend/internal/query/promql/evaluator.go:118-136 | one row: get or create the series by key and append the point, keeping the index |
| PromqlEvaluator.Evaluator.ApplyRate | backend/internal/query/promql/evaluator.go:181-224 | computes `rate` |
| PromqlEvaluator.Evaluator.RateOfPoints | backend/internal/query/promql/evaluator.go:192-220 | the point loop of `rate` |
| PromqlEvaluator.Evaluator.RateOfPoint | backend/internal/query/promql/evaluator.go:193-217 | one iteration: the first point and a point without an earlier one in the window give nothing; otherwise the rate against that earlier point |
| PromqlEvaluator.Evaluator.ScanAfter | backend/internal/query/promql/evaluator.go:201-206 | the backward scan of `rate` |
| PromqlEvaluator.Evaluator.ApplyIncrease | backend/internal/query/promql/evaluator.go:227-262 | computes `increase` |
| PromqlEvaluator.Evaluator.IncreaseOfPoints | backend/internal/query/promql/evaluator.go:238-258 | the point loop of `increase` |
| PromqlEvaluator.Evaluator.ScanAtOrBefore | backend/internal/query/promql/evaluator.go:243-248 | the backward scan of `increase` |
| PromqlEvaluator.Evaluator.CollectTimes | backend/internal/query/promql/evaluator.go:271-284 | `timestampMap` and the sort give the distinct times ascending |
| PromqlEvaluator.Evaluator.ApplySum | backend/internal/query/promql/evaluator.go:265-311 | computes `sum` |
| PromqlEvaluator.Evaluator.ApplyAvg | backend/internal/query/promql/evaluator.go:314-367 | computes `avg` |
| PromqlEvaluator.Evaluator.AccumulateAt | backend/internal/query/promql/evaluator.go:338-348 | the sum and the count of contributing series at one time |
| PromqlEvaluator.Evaluator.ApplyCount | backend/internal/query/promql/evaluator.go:370-377 | computes `count` |
| PromqlEvaluator.Evaluator.ApplyMin | backend/internal/query/promql/evaluator.go:380-399 | computes `min` |
| PromqlEvaluator.Evaluator.ApplyMax | backend/internal/query/promql/evaluator.go:402-421 | computes `max` |
| PromqlEvaluator.Evaluator.ApplyFunction | backend/internal/query/promql/evaluator.go:159-178 | dispatches on the function name |
| PromqlEvaluator.Evaluator.ApplyAggregation | backend/internal/query/promql/evaluator.go:424-439 | dispatches on the operation |
| PromqlEvaluator.Evaluator.Evaluate | backend/internal/query/promql/evaluator.go:43-70 | fetch, then the function if named, then the aggregation if present |
| PromqlFunctions.Invoke | backend/internal/query/promql/functions.go:186-250 | only the `time` handler answers, with the current Unix second |
| PromqlFunctions.BuiltinTableShape | backend/internal/query/promql/functions.go:53-161 | the registry holds exactly the thirteen built-ins, each under its own name |
| PromqlFunctions.BuiltinHandlers | backend/internal/query/promql/functions.go:53-161 | every built-in has a handler, and only `time`'s answers without the evaluator |
| PromqlFunctions.BuiltinSignatures | backend/internal/query/promql/functions.go:55-69 | `rate` and `increase` take a range vector and give an instant vector; `time` takes nothing and gives a scalar |
| PromqlFunctions.FunctionRegistry.constructor | backend/internal/query/promql/functions.go:44-51 | a new registry holds the built-in table |
| PromqlFunctions.FunctionRegistry.RegisterBuiltinFunctions | backend/internal/query/promql/functions.go:53-161 | the thirteen registrations in order |
| PromqlFunctions.FunctionRegistry.Register | backend/internal/query/promql/functions.go:164-166 | inserts or overwrites the entry of the name; every other entry is unchanged |
| PromqlFunctions.FunctionRegistry.Get | backend/internal/query/promql/functions.go:169-172 | found exactly when registered, and then that entry; the zero `Function` otherwise |
| PromqlFunctions.FunctionRegistry.List | backend/internal/query/promql/functions.go:175-182 | every registered name once, in ascending order |
| PromqlFunctions.Ceil | backend/internal/query/promql/functions.go:284 | `math.Ceil` is a whole number at or above its argument and less than one above it |
| PromqlFunctions.Floor | backend/internal/query/promql/functions.go:304 | `math.Floor` is a whole number at or below its argument and less than one below it |
| PromqlFunctions.Round | backend/internal/query/promql/functions.go:324 | `math.Round` is a whole number within one half, and a tie rounds away from zero |
| PromqlFunctions.MapPoints | backend/internal/query/promql/functions.go:253-350 | the series count, names, labels, point counts and times are kept; only values change |
| PromqlFunctions.Abs | backend/internal/query/promql/functions.go:264 | `math.Abs` is non-negative and is the value or its negation |
| PromqlFunctions.ApplyAbs | backend/internal/query/promql/functions.go:253-271 | values become non-negative, each the value or its negation |
| PromqlFunctions.ApplyCeil | backend/internal/query/promql/functions.go:273-291 | each value becomes its ceiling |
| PromqlFunctions.ApplyFloor | backend/internal/query/promql/functions.go:293-311 | each value becomes its floor |
| PromqlFunctions.ApplyRound | backend/internal/query/promql/functions.go:313-331 | each value moves by at most one half |
| PromqlFunctions.ApplyTimestamp | backend/internal/query/promql/functions.go:333-350 | each value becomes the Unix second of its point |
| QueryService.PrometheusFormatShape | backend/internal/query/service.go:166-197 | one entry per series in order, one `[unix second, value]` pair per point in order; the result type is passed on |
| QueryService.PrometheusFormat | backend/internal/query/service.go:166-197 | the result type is passed on; one entry per series, whose `metric` is the series' name and labels and which has one pair per point |
| QueryService.MetricOfLabels | backend/internal/query/service.go:180-185 | `metric` holds the labels and `__name__`; a label named `__name__` wins over the metric name |
| QueryService.FetchedSeriesMetric | backend/internal/query/service.go:180-185 | a fetched series shows exactly its metric name and its service |
| QueryService.ResponseCodes | backend/internal/query/service.go:59-104 | 400 exactly for a body that does not bind or a query the parser rejects with an error; 500 exactly for a failed evaluation or a parse that panics, the latter with no body; otherwise 200 with "success" and data |
| QueryService.BindQuery | backend/internal/query/service.go:34 | a decoded request binds exactly when its query is non-empty; an empty query is the validator's error |
| QueryService.MetricsQueryResponse | backend/internal/query/service.go:59-104 | 200 exactly when data is returned, with "success" and no error; 400 exactly for a bad body or a query the parser rejects; a parse that panics is the bare 500 of `gin.Recovery()` (backend/main.go:70); an empty query is a binding error, not a parse error |
| QueryService.DefaultWindow | backend/internal/query/service.go:70-75 | an unset start is an hour before now, an unset end is now; set bounds are kept |
| QueryService.DecodeStringMap | backend/internal/query/service.go:238-241 | decoding succeeds exactly when every value is a string or null; null becomes "" |
| QueryService.AddOne | backend/internal/query/service.go:243-248 | marking one more pair adds its value under its key |
| QueryService.LabelValuesIff | backend/internal/query/service.go:229-249 | a value is listed under a key exactly when some decodable row of the metric carries that pair |
| QueryService.LabelValues | backend/internal/query/service.go:229-249 | no key is listed with an empty set of values |
| QueryService.LabelValuesNonEmpty | backend/internal/query/service.go:243-248 | every listed key has at least one value |
| QueryService.Service.constructor | backend/internal/query/service.go:24-46 | the service and its evaluator read the given store |
| QueryService.Service.HandleMetricsQuery | backend/internal/query/service.go:59-104 | the response of the endpoint over the metrics table, with a panicking parse answered by the recovered 500 |
| QueryService.PanickingQueryRecovered | backend/internal/query/service.go:77-84 | `a}b{` and `rate(x]y[)` are answered with the bare 500, not the 400 of a query that does not parse |
| QueryService.Service.ConvertToPrometheusFormat | backend/internal/query/service.go:166-197 | the Prometheus layout of the result |
| QueryService.Service.MetricObject | backend/internal/query/service.go:180-185 | `__name__`, then each label copied over it |
| QueryService.Service.GetMetricLabels | backend/internal/query/service.go:220-262 | keys are exactly the observed keys; each list holds exactly the observed values, once each |
| QueryService.Service.AddPairs | backend/internal/query/service.go:243-248 | the inner loop marks every pair of one row |
| QueryService.Service.ListSet | backend/internal/query/service.go:253-258 | each value once |
| Config.DefaultsFillZeros | backend/internal/config/config.go:96-154 | every zero field gets its default, every set field keeps its value, and the fields without a rule are untouched |
| Config.WithDefaults | backend/internal/config/config.go:96-154 | after `setDefaults` every defaulted field is set, every set field kept, and the fields without a rule untouched |
| Config.ServerDefaults | backend/internal/config/config.go:97-108 | a zero port, environment or timeout takes its `DefaultConfig()` value; a set one is kept |
| Config.StorageDefaults | backend/internal/config/config.go:110-121 | a zero type, path, retention or connection limit takes its `DefaultConfig()` value; a set one is kept |
| Config.IngestionDefaults | backend/internal/config/config.go:123-139 | zero ports, batch size and flush interval take their defaults; both endpoints off become both on, any other switch setting is kept |
| Config.WebDefaults | backend/internal/config/config.go:141-146 | an empty title or theme takes its default; `enabled` and `dogfood` are left alone |
| Config.LoggingDefaults | backend/internal/config/config.go:148-153 | an empty level or format takes its default; the file path is left alone |
| Config.IngestionSwitches | backend/internal/config/config.go:129-133 | both endpoints off means both on; otherwise both switches are left as they are |
| Config.FixedPoints | backend/internal/config/config.go:96-154 | `setDefaults` leaves a configuration unchanged exactly when no defaulted field is zero |
| Config.DefaultsIdempotent | backend/internal/config/config.go:96-154 | filling in defaults twice is filling them in once |
| Config.DefaultIsFixedPoint | backend/internal/config/config.go:156-189 | `DefaultConfig()` is complete and a fixed point of `setDefaults` |
| Config.EmptyFileDefaults | backend/internal/config/config.go:141-153 | a zero configuration becomes `DefaultConfig()` except that the web UI stays disabled |
| Config.Config.constructor | backend/internal/config/config.go:55-81 | the configuration as decoded |
| Config.Config.Default | backend/internal/config/config.go:156-189 | `DefaultConfig()` |
| Config.Config.SetDefaults | backend/internal/config/config.go:96-154 | the fields become the defaults-filled value of the old ones |
| Config.Config.SetServerDefaults | backend/internal/config/config.go:97-108 | the server section, nothing else |
| Config.Config.SetStorageDefaults | backend/internal/config/config.go:110-121 | the storage section, nothing else |
| Config.Config.SetIngestionDefaults | backend/internal/config/config.go:123-139 | the ingestion section, nothing else |
| Config.Config.SetWebDefaults | backend/internal/config/config.go:141-146 | the web section, nothing else |
| Config.Config.SetLoggingDefaults | backend/internal/config/config.go:148-153 | the logging section, nothing else |
| Web.ListingDefaults | backend/internal/web/service.go:34-50 | without parameters a listing is the newest 100 rows, and `total` counts the rows served, not the rows stored |
| Web.QueryInt | backend/internal/web/service.go:35-36 | a parameter, or its fallback when absent, reads as the number `Atoi` accepts, and otherwise as 0 or an `int64` bound |
| Web.ListingOf | backend/internal/web/service.go:34-50 | the limit and offset as read; `total` is the number of rows served, at most a non-negative limit; the rows are newest first and come from the table |
| Web.MalformedLimitServesNothing | backend/internal/web/service.go:35 | a malformed `limit` reads as 0 and serves nothing |
| Web.Bind | backend/internal/web/service.go:101-113 | a decoded body binds exactly when `type` and `query` are non-empty; an undecodable body keeps its error, a missing required field gives the validator's error |
| Web.QueryOutcomeOf | backend/internal/web/service.go:100-163 | a bad request exactly for a body that does not bind or an unknown type, with the binding error or "Invalid query type"; a zero limit becomes 100, any other is kept; the metrics type serves the page of the newest metrics |
| Web.QueryRowsBounded | backend/internal/web/service.go:115-161 | a table query serves at most its limit, 100 when unset |
| Web.FormatDuration | backend/internal/web/service.go:359-371 | the seconds, minutes or hours branch by size; minutes and seconds reduced mod 60 and consistent with the duration |
| Web.StepsBounds | backend/internal/web/service.go:378-382 | the loop's exponent counts the powers of 1024 below the size |
| Web.ByteSizeBounds | backend/internal/web/service.go:374-385 | 1024^(exp+1) <= bytes < 1024^(exp+2), with exp < 6 so the unit letter exists and the divisor fits in `int64` |
| Web.ByteSizeUnique | backend/internal/web/service.go:374-385 | the exponent is the only one with those bounds |
| Web.ByteSizeOf | backend/internal/web/service.go:374-385 | below 1024 the plain byte count; otherwise a quotient in [1, 1024) with a unit letter from `KMGTPE` |
| Web.FormatBytes | backend/internal/web/service.go:374-385 | the loop computes the size that `ByteSizeBounds` characterises |
| Web.Service.constructor | backend/internal/web/service.go:24-32 | the service reads the given store |
| Web.Service.GetMetrics | backend/internal/web/service.go:34-50 | the page the parameters select, and its size |
| Web.Service.GetTraces | backend/internal/web/service.go:52-68 | the page the parameters select, and its size |
| Web.Service.GetLogs | backend/internal/web/service.go:70-86 | the page the parameters select, and its size |
| Web.Service.Query | backend/internal/web/service.go:100-163 | defaults the limit, then dispatches on the query type |

## Left out

- Network servers, gRPC and gin lifecycle (`Start`, `Stop`, `startHTTPServer`, `startGRPCServer`), the dogfood goroutine, loggers and process startup: I/O and concurrency with no logic to state.
- Concurrency between requests: every operation is modelled as one sequential call.
- SQL text, SQLite internals and `JSON_EXTRACT` key interpolation: tables are sequences, and the label filter is map membership.
- JSON byte layout and `json.Marshal` itself: attribute maps stay decoded; `json.Marshal` is a parameter of the log-body conversion.
- Row ids and `created_at` columns: the database assigns them and nothing reads them.
- `config.Load` and `Config.Save`: file I/O. The decoded configuration is the constructor's argument.
- HTML page handlers, `GetConfig`, `SaveConfig`, `GetSystemStatus`, `getStorageUsage`, `handleLogQLQuery`, `handleTraceQLQuery` and `HandleExport`: stubs, runtime statistics or file-system calls.
- `handlePromQLQuery`, `HandleLogsQuery`, `HandleTracesQuery` and `GetAvailableMetrics`: the first three return canned values and the last is a plain `SELECT DISTINCT`. `Web.Service.Query` ends at `Delegated` for the three query languages.
- Text rendering: `%.0f`/`%.1f` in `formatBytes`, `%d`/`%.1f` in `formatDuration`, and error strings. The model returns the numbers the text is built from.
- gin binding: JSON decoding is a `Result` parameter, so a body that does not decode is `Failure`. After it, `Web.Bind` applies the `binding:"required"` rule to `type` and `query`, and `QueryService.BindQuery` applies it to the metrics query's `Query`. The validator's message is one fixed string, and the decoder's messages are not modelled.
- Byte strings: Go strings are byte sequences, while the model's strings are sequences of Unicode characters. Positions from `strings.Index` and `strings.LastIndex` are therefore character positions, not byte offsets. `strings.TrimSpace` on invalid UTF-8 and `Otlp.BytesToString` on bytes that are not UTF-8 are modelled one character per byte. Every delimiter the parser looks for is ASCII, so the slices it takes are the same.
- The older service `internal/ingestion` writes through the root package `internal/storage`, which is not part of this model. It is taken to behave like `backend/internal/storage`: the same appends and the same rejections.
- Order.SortBy: `ORDER BY` on a key leaves the order of equal keys to SQLite. The model fixes one such order and does not claim it is the one SQLite picks.
- Web.FormatDuration: exact reals replace the `float64` conversion of `d.Seconds()`, so rounding for very large durations is not modelled.
- PromqlAggregates.Min, PromqlAggregates.Max: over series without points the source reports `+Inf`/`-Inf`; the model reports 0 there, because `real` has no infinities.
- PromqlWindows.Rate: two points with the same time divide by zero in the source and give an IEEE infinity or NaN; the model puts 0 there.
- PromqlFunctions.ApplyCeil, PromqlFunctions.ApplyFloor, PromqlFunctions.ApplyRound: exact reals; NaN, infinities and `float64` rounding are not modelled.
- Nil kvlist entries: top-level attribute lists may hold nil entries, but a kvlist's entries cannot. In Go, `kvMap[kv.Key]` would panic on a nil entry (`backend/internal/grpc/logs.go:150`, `backend/internal/grpc/metrics.go:338`), and protobuf decoding never produces one.
- GrpcLogs.ExtractLogBody: a double body goes through `rune(d)`, modelled as truncation toward zero; the out-of-range conversion, which Go leaves implementation-defined, is not modelled.
- PromqlEvaluator.Evaluator.GetMetricSeries: Go returns the series in random map order; the model returns them in the order their first row arrives. `PromqlSeries.GroupPartitions` states what holds for every order.
- QueryService.Service.GetMetricLabels: value lists come in random map order in the source; the model proves membership and no repeats, not an order.
- QueryService.Service.HandleMetricsQuery: `time.Now().Add(-time.Hour)` is plain subtraction; `Time.Add` saturation at the far ends of the time range is not modelled.
- Storage.Store.GetMetrics, Storage.Store.GetTraces, Storage.Store.GetLogs: read and scan errors are not modelled, so the listings and `Web.Service.Query` never answer 500. The evaluator's query errors are left out for the same reason.
- Storage.Cutoff: `AddDate(0, 0, -days)` is taken as `days` 24-hour days; calendar days that are not 24 hours long, at daylight-saving changes, are not modelled.
- The nil-versus-empty distinction of Go maps and slices, for example an empty label map encoding as `null` or `{}`: every map is a value.
- `time.Parse` and `time.ParseDuration`: parameters; only their success or failure and their value are used.

## Findings

| source | as written | input that shows it | evidently intended | confidence | as-written member | corrected member |
|---|---|---|---|---|---|---|
| backend/internal/query/promql/evaluator.go:83 | the time bounds are passed as `Unix()` seconds, but `timestamp` holds `UnixNano()` nanoseconds (backend/internal/storage/sqlite.go:163) | a metric row stored at 1700000000 s (in nanoseconds) queried over the hour starting then; the bounds are 1700000000 and 1700003600, far below the stored value | compare the column with `UnixNano()` bounds, so rows inside the window are fetched | high; not executed | PromqlEvaluator.SecondsBoundsMissRow | PromqlEvaluator.NanosecondBoundsKeepRow |
