/** The older OTLP/HTTP ingestion service. Its handlers bind the same JSON
    shapes, flatten them with the same nested loops and helpers as the
    `HttpIngestion` service, and differ only in how failures are logged and
    in taking the service-name key from the OpenTelemetry semantic
    conventions, which is the same "service.name". */
module LegacyIngestion {
  import opened Wrappers
  import Otlp
  import opened Storage
  import opened Seqs
  import opened HttpIngestion

  /** `semconv.ServiceNameKey` of semantic conventions v1.27.0. */
  const SemconvServiceNameKey: string := "service.name"

  /** The legacy resource rule therefore names the same service as the
      backend one: the first `service.name` attribute, empty or not, else
      "unknown". */
  lemma {:induction false} SameServiceNameRule(attrs: seq<StringKeyValue>, j: nat)
    requires j < |attrs| && attrs[j].key == SemconvServiceNameKey
    requires forall i :: 0 <= i < j ==> attrs[i].key != SemconvServiceNameKey
    ensures ServiceNameOf(attrs) == attrs[j].value
  {
    FirstServiceNameWins(attrs, j);
  }

  class Service {
    const storage: Store

    constructor(storage: Store)
      ensures this.storage == storage
    {
      this.storage := storage;
    }

    /** `HandleTraces`: 400 and nothing stored when the body does not bind;
        otherwise every span is inserted in nesting order, failures do not
        stop the batch, and the reply is a success. */
    method HandleTraces(req: Result<TracesRequest, string>, parse: ParseTime) returns (resp: Response)
      modifies storage
      ensures req.Failure? ==> resp == BadRequest(req.error) && storage.traces == old(storage.traces)
      ensures req.Success? ==> (resp == Accepted
        && storage.traces == old(storage.traces) + Concat(req.value.resourceSpans, ResourceSpansWrittenOf(parse, storage.faults.traces)))
      ensures storage.metrics == old(storage.metrics) && storage.logs == old(storage.logs)
    {
      if req.Failure? {
        return BadRequest(req.error);
      }
      IngestTraces(storage, req.value, parse);
      return Accepted;
    }

    /** `HandleMetrics`: gauge rows, then sum rows, per metric. */
    method HandleMetrics(req: Result<MetricsRequest, string>, parse: ParseTime) returns (resp: Response)
      modifies storage
      ensures req.Failure? ==> resp == BadRequest(req.error) && storage.metrics == old(storage.metrics)
      ensures req.Success? ==> (resp == Accepted
        && storage.metrics == old(storage.metrics) + Concat(req.value.resourceMetrics, ResourceMetricsWrittenOf(parse, storage.faults.metrics)))
      ensures storage.traces == old(storage.traces) && storage.logs == old(storage.logs)
    {
      if req.Failure? {
        return BadRequest(req.error);
      }
      IngestMetrics(storage, req.value, parse);
      return Accepted;
    }

    /** `HandleLogs`: the level passes through unchanged, ids only when set. */
    method HandleLogs(req: Result<LogsRequest, string>, parse: ParseTime) returns (resp: Response)
      modifies storage
      ensures req.Failure? ==> resp == BadRequest(req.error) && storage.logs == old(storage.logs)
      ensures req.Success? ==> (resp == Accepted
        && storage.logs == old(storage.logs) + Concat(req.value.resourceLogs, ResourceLogsWrittenOf(parse, storage.faults.logs)))
      ensures storage.metrics == old(storage.metrics) && storage.traces == old(storage.traces)
    {
      if req.Failure? {
        return BadRequest(req.error);
      }
      IngestLogs(storage, req.value, parse);
      return Accepted;
    }
  }
}
