/** The gRPC logs adapter: one stored log row per OTLP log record. A record
    whose insert fails is logged and skipped; its siblings are still stored. */
module GrpcLogs {
  import opened Wrappers
  import opened GoInts
  import opened Otlp
  import opened Storage
  import opened Seqs

  datatype LogRecord = LogRecord(
    timeUnixNano: Uint64,
    severityText: string,
    body: AnyValue,
    attributes: seq<Option<KeyValue>>,
    traceId: seq<Byte>,
    spanId: seq<Byte>)

  datatype ScopeLogs = ScopeLogs(logRecords: seq<LogRecord>)
  datatype ResourceLogs = ResourceLogs(resource: Option<Resource>, scopeLogs: seq<ScopeLogs>)
  datatype ExportRequest = ExportRequest(resourceLogs: seq<ResourceLogs>)

  /** `json.Marshal` of a converted value: `None` when encoding fails. */
  type Marshal = AttrValue -> Option<string>

  /** `convertSeverityText`: an empty severity becomes "INFO", any other
      text is kept as it is. */
  function ConvertSeverityText(severityText: string): (r: string)
    ensures r != ""
    ensures severityText != "" ==> r == severityText
  {
    if severityText == "" then "INFO" else severityText
  }

  const ReplacementChar: char := '\U{FFFD}'

  /** A Unicode scalar value: a code point that is not a surrogate. */
  predicate IsScalarValue(r: int)
  {
    0 <= r < 0xD800 || 0xE000 <= r < 0x11_0000
  }

  /** `string(rune(n))`: the code point `int32(n)` when it is a Unicode
      scalar value, U+FFFD otherwise. */
  function RuneString(n: int): (s: string)
    ensures |s| == 1
    ensures IsScalarValue(Wrap32(n)) ==> s[0] as int == Wrap32(n)
    ensures !IsScalarValue(Wrap32(n)) ==> s[0] == ReplacementChar
  {
    var r := Wrap32(n);
    if IsScalarValue(r) then [r as char] else [ReplacementChar]
  }

  /** `rune(d)` for a double: the value truncated toward zero. */
  function Truncate(d: real): (n: int)
    ensures d >= 0.0 ==> n as real <= d < n as real + 1.0
    ensures d < 0.0 ==> n as real - 1.0 < d <= n as real
  {
    if d >= 0.0 then d.Floor else -((-d).Floor)
  }

  /** `extractLogBody`: the message text of a log body. */
  function ExtractLogBody(body: AnyValue, marshal: Marshal): (s: string)
    ensures body.Nil? || body.Unset? || body.NilArray? || body.NilKvlist? ==> s == ""
    ensures body.StringValue? ==> s == body.s
    ensures body.BoolValue? ==> s == if body.b then "true" else "false"
    ensures body.IntValue? ==> |s| == 1
    ensures body.IntValue? ==> s == RuneString(body.i)
    ensures body.DoubleValue? ==> s == RuneString(Truncate(body.d))
    ensures body.ArrayValue? || body.KvlistValue? ==> s == JsonText(ConvertAttributeValue(body), marshal)
  {
    match body
    case StringValue(v) => v
    case BoolValue(b) => if b then "true" else "false"
    case IntValue(i) => RuneString(i)
    case DoubleValue(d) => RuneString(Truncate(d))
    case ArrayValue(_) => JsonText(ConvertAttributeValue(body), marshal)
    case KvlistValue(_) => JsonText(ConvertAttributeValue(body), marshal)
    case _ => ""
  }

  /** The JSON text of a converted array or kvlist, "" on an encoding error. */
  function JsonText(v: AttrValue, marshal: Marshal): (text: string)
    ensures marshal(v).None? ==> text == ""
    ensures marshal(v).Some? ==> text == marshal(v).value
  {
    match marshal(v)
    case None => ""
    case Some(text) => text
  }

  /** An integer body is one character, not its decimal digits: 65 gives
      "A", and a number that is no code point gives U+FFFD. */
  lemma IntBodyIsRune()
    ensures forall marshal: Marshal :: ExtractLogBody(IntValue(65), marshal) == "A"
    ensures forall marshal: Marshal :: ExtractLogBody(IntValue(-1), marshal) == [ReplacementChar]
    ensures forall marshal: Marshal :: ExtractLogBody(IntValue(0x1_0000_0041), marshal) == "A"
  {
  }

  /** A number body is the one character whose code point is the number,
      a double being truncated toward zero first. */
  lemma NumberBodyIsCodePoint(i: int, d: real, marshal: Marshal)
    requires IsScalarValue(i) && IsScalarValue(Truncate(d))
    ensures ExtractLogBody(IntValue(i), marshal) == [i as char]
    ensures ExtractLogBody(DoubleValue(d), marshal) == [Truncate(d) as char]
  {
  }

  /** An array or kvlist body is the JSON text of its converted value, and
      "" when that value does not encode. */
  lemma CollectionBodyIsJson(body: AnyValue, marshal: Marshal)
    requires body.ArrayValue? || body.KvlistValue?
    ensures marshal(ConvertAttributeValue(body)).Some? ==>
      ExtractLogBody(body, marshal) == marshal(ConvertAttributeValue(body)).value
    ensures marshal(ConvertAttributeValue(body)).None? ==> ExtractLogBody(body, marshal) == ""
  {
  }

  /** The log row `processLogRecord` builds. */
  function LogRow(rec: LogRecord, service: string, marshal: Marshal): (l: Log)
    ensures l.traceId.Some? <==> rec.traceId != []
    ensures l.spanId.Some? <==> rec.spanId != []
    ensures l.traceId.Some? ==> l.traceId.value == BytesToString(rec.traceId)
    ensures l.spanId.Some? ==> l.spanId.value == BytesToString(rec.spanId)
    ensures l.level != ""
  {
    Log(
      FromUint64(rec.timeUnixNano),
      service,
      ConvertSeverityText(rec.severityText),
      ExtractLogBody(rec.body, marshal),
      Attributes(rec.attributes),
      if |rec.traceId| > 0 then Some(BytesToString(rec.traceId)) else None,
      if |rec.spanId| > 0 then Some(BytesToString(rec.spanId)) else None)
  }

  /** What one record leaves in the logs table. */
  function RecordWritten(rec: LogRecord, service: string, marshal: Marshal, rejected: set<Log>): seq<Log>
  {
    var row := StoredLog(LogRow(rec, service, marshal));
    if row in rejected then [] else [row]
  }

  function RecordWrittenOf(service: string, marshal: Marshal, rejected: set<Log>): LogRecord -> seq<Log>
  {
    (rec: LogRecord) => RecordWritten(rec, service, marshal, rejected)
  }

  function ScopeWrittenOf(service: string, marshal: Marshal, rejected: set<Log>): ScopeLogs -> seq<Log>
  {
    (scope: ScopeLogs) => Concat(scope.logRecords, RecordWrittenOf(service, marshal, rejected))
  }

  function ResourceWritten(rl: ResourceLogs, marshal: Marshal, rejected: set<Log>): seq<Log>
  {
    Concat(rl.scopeLogs, ScopeWrittenOf(ExtractServiceName(rl.resource), marshal, rejected))
  }

  function ResourceWrittenOf(marshal: Marshal, rejected: set<Log>): ResourceLogs -> seq<Log>
  {
    (rl: ResourceLogs) => ResourceWritten(rl, marshal, rejected)
  }

  /** A record that the store accepts is stored even when a sibling before
      it failed. */
  lemma SiblingsKept(recs: seq<LogRecord>, j: nat, service: string, marshal: Marshal, rejected: set<Log>)
    requires j < |recs| && StoredLog(LogRow(recs[j], service, marshal)) !in rejected
    ensures StoredLog(LogRow(recs[j], service, marshal)) in Concat(recs, RecordWrittenOf(service, marshal, rejected))
  {
    ConcatMember(recs, j, RecordWrittenOf(service, marshal, rejected), StoredLog(LogRow(recs[j], service, marshal)));
  }

  /** `processLogRecord`: build the row, setting each id only when its bytes
      are non-empty, and insert it. */
  method ProcessLogRecord(store: Store, rec: LogRecord, service: string, marshal: Marshal) returns (ok: bool)
    modifies store
    ensures ok <==> StoredLog(LogRow(rec, service, marshal)) !in store.faults.logs
    ensures store.logs == old(store.logs) + RecordWritten(rec, service, marshal, store.faults.logs)
    ensures store.metrics == old(store.metrics) && store.traces == old(store.traces)
  {
    var row := Log(
      FromUint64(rec.timeUnixNano),
      service,
      ConvertSeverityText(rec.severityText),
      ExtractLogBody(rec.body, marshal),
      Attributes(rec.attributes),
      None,
      None);
    if |rec.traceId| > 0 {
      row := row.(traceId := Some(BytesToString(rec.traceId)));
    }
    if |rec.spanId| > 0 {
      row := row.(spanId := Some(BytesToString(rec.spanId)));
    }
    ok := store.InsertLog(row);
  }

  /** The record loop of one scope: a failing record is logged and skipped. */
  method ProcessScope(store: Store, scope: ScopeLogs, service: string, marshal: Marshal)
    modifies store
    ensures store.logs == old(store.logs) + ScopeWrittenOf(service, marshal, store.faults.logs)(scope)
    ensures store.metrics == old(store.metrics) && store.traces == old(store.traces)
  {
    var rejected := store.faults.logs;
    var recs := scope.logRecords;
    for j := 0 to |recs|
      invariant store.logs == old(store.logs) + Concat(recs[..j], RecordWrittenOf(service, marshal, rejected))
      invariant store.metrics == old(store.metrics) && store.traces == old(store.traces)
    {
      var ok := ProcessLogRecord(store, recs[j], service, marshal);
      ConcatStep(old(store.logs), recs, j, RecordWrittenOf(service, marshal, rejected));
    }
    ConcatAll(recs, RecordWrittenOf(service, marshal, rejected));
  }

  /** `processResourceLog`: every scope under the resource's service name. */
  method ProcessResourceLog(store: Store, rl: ResourceLogs, marshal: Marshal)
    modifies store
    ensures store.logs == old(store.logs) + ResourceWritten(rl, marshal, store.faults.logs)
    ensures store.metrics == old(store.metrics) && store.traces == old(store.traces)
  {
    var service := ExtractServiceName(rl.resource);
    var rejected := store.faults.logs;
    var scopes := rl.scopeLogs;
    for i := 0 to |scopes|
      invariant store.logs == old(store.logs) + Concat(scopes[..i], ScopeWrittenOf(service, marshal, rejected))
      invariant store.metrics == old(store.metrics) && store.traces == old(store.traces)
    {
      ProcessScope(store, scopes[i], service, marshal);
      ConcatStep(old(store.logs), scopes, i, ScopeWrittenOf(service, marshal, rejected));
    }
    ConcatAll(scopes, ScopeWrittenOf(service, marshal, rejected));
  }

  /** `Export`: a nil request is an invalid argument; otherwise every
      resource is processed and no record is reported rejected. */
  method Export(store: Store, req: Option<ExportRequest>, marshal: Marshal) returns (r: Result<PartialSuccess, GrpcError>)
    modifies store
    ensures req.None? ==> r.Failure? && r.error.InvalidArgument? && store.logs == old(store.logs)
    ensures req.Some? ==> (r == Success(PartialSuccess(0, ""))
      && store.logs == old(store.logs) + Concat(req.value.resourceLogs, ResourceWrittenOf(marshal, store.faults.logs)))
    ensures store.metrics == old(store.metrics) && store.traces == old(store.traces)
  {
    if req.None? {
      return Failure(InvalidArgument("request cannot be nil"));
    }
    var rls := req.value.resourceLogs;
    var rejected := store.faults.logs;
    for i := 0 to |rls|
      invariant store.logs == old(store.logs) + Concat(rls[..i], ResourceWrittenOf(marshal, rejected))
      invariant store.metrics == old(store.metrics) && store.traces == old(store.traces)
    {
      ProcessResourceLog(store, rls[i], marshal);
      ConcatStep(old(store.logs), rls, i, ResourceWrittenOf(marshal, rejected));
    }
    ConcatAll(rls, ResourceWrittenOf(marshal, rejected));
    return Success(PartialSuccess(0, ""));
  }
}
