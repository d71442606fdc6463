/** The gRPC metrics adapter: every OTLP data point becomes one or more
    stored metric rows. Gauge and sum points give one row under the metric's
    name; histogram, exponential-histogram and summary points are split into
    `_count`, `_sum`, `_bucket` and `_quantile` rows. */
module GrpcMetrics {
  import opened Wrappers
  import opened GoInts
  import opened Otlp
  import opened Storage
  import opened Seqs

  datatype NumberDataPoint = NumberDataPoint(
    attributes: seq<Option<KeyValue>>,
    timeUnixNano: Uint64,
    value: NumberValue)

  /** `sum` is `None` when the optional field is absent. */
  datatype HistogramDataPoint = HistogramDataPoint(
    attributes: seq<Option<KeyValue>>,
    timeUnixNano: Uint64,
    count: Uint64,
    sum: Option<real>,
    bucketCounts: seq<Uint64>,
    explicitBounds: seq<real>)

  datatype ExponentialHistogramDataPoint = ExponentialHistogramDataPoint(
    attributes: seq<Option<KeyValue>>,
    timeUnixNano: Uint64,
    count: Uint64,
    sum: Option<real>)

  datatype ValueAtQuantile = ValueAtQuantile(quantile: real, value: real)

  datatype SummaryDataPoint = SummaryDataPoint(
    attributes: seq<Option<KeyValue>>,
    timeUnixNano: Uint64,
    count: Uint64,
    sum: real,
    quantileValues: seq<ValueAtQuantile>)

  /** The `Data` oneof of a metric; `NoData` is an unset or unknown kind. */
  datatype MetricData =
    | NoData
    | Gauge(gaugePoints: seq<NumberDataPoint>)
    | Sum(sumPoints: seq<NumberDataPoint>)
    | Histogram(histogramPoints: seq<HistogramDataPoint>)
    | ExponentialHistogram(exponentialPoints: seq<ExponentialHistogramDataPoint>)
    | Summary(summaryPoints: seq<SummaryDataPoint>)

  datatype OtlpMetric = OtlpMetric(name: string, data: MetricData)
  datatype ScopeMetrics = ScopeMetrics(metrics: seq<OtlpMetric>)
  datatype ResourceMetrics = ResourceMetrics(resource: Option<Resource>, scopeMetrics: seq<ScopeMetrics>)
  datatype ExportRequest = ExportRequest(resourceMetrics: seq<ResourceMetrics>)

  /** One stored row of a data point: its time is `time.Unix(0, int64(t))`. */
  function Row(name: string, value: real, time: Uint64, service: string, labels: map<string, AttrValue>): (row: Metric)
    ensures row.metricName == name && row.value == value && row.serviceName == service && row.labels == labels
    ensures InInt64(row.timestamp) && (time <= MaxInt64 ==> row.timestamp == time)
  {
    Metric(FromUint64(time), name, value, labels, service)
  }

  /** The row of a gauge or sum point. */
  function NumberRows(name: string, service: string, p: NumberDataPoint): seq<Metric>
  {
    [Row(name, NumericValue(p.value), p.timeUnixNano, service, Attributes(p.attributes))]
  }

  function HasHistogramSum(sum: Option<real>): bool
  {
    sum.Some? && sum.value != 0.0
  }

  function Min(a: int, b: int): int { if a <= b then a else b }

  /** The `_bucket` rows of a histogram point: one per bucket that has an
      explicit bound, so the overflow bucket is never stored. */
  function BucketRows(name: string, service: string, p: HistogramDataPoint): seq<Metric>
  {
    var labels := Attributes(p.attributes);
    seq(Min(|p.bucketCounts|, |p.explicitBounds|), i requires 0 <= i < Min(|p.bucketCounts|, |p.explicitBounds|) =>
      Row(name + "_bucket", p.bucketCounts[i] as real, p.timeUnixNano, service, AddLabel(labels, BucketLabel, p.explicitBounds[i])))
  }

  /** The rows of a histogram point, in insertion order. */
  function HistogramRows(name: string, service: string, p: HistogramDataPoint): seq<Metric>
  {
    var labels := Attributes(p.attributes);
    [Row(name + "_count", p.count as real, p.timeUnixNano, service, labels)]
    + (if HasHistogramSum(p.sum) then [Row(name + "_sum", p.sum.value, p.timeUnixNano, service, labels)] else [])
    + BucketRows(name, service, p)
  }

  function ExponentialHistogramRows(name: string, service: string, p: ExponentialHistogramDataPoint): seq<Metric>
  {
    var labels := Attributes(p.attributes);
    [Row(name + "_count", p.count as real, p.timeUnixNano, service, labels)]
    + (if HasHistogramSum(p.sum) then [Row(name + "_sum", p.sum.value, p.timeUnixNano, service, labels)] else [])
  }

  function QuantileRows(name: string, service: string, p: SummaryDataPoint): seq<Metric>
  {
    var labels := Attributes(p.attributes);
    seq(|p.quantileValues|, i requires 0 <= i < |p.quantileValues| =>
      var q := p.quantileValues[i];
      Row(name + "_quantile", q.value, p.timeUnixNano, service, AddLabel(labels, QuantileLabel, q.quantile)))
  }

  function SummaryRows(name: string, service: string, p: SummaryDataPoint): (rows: seq<Metric>)
    ensures |rows| == 1 + (if p.sum != 0.0 then 1 else 0) + |p.quantileValues|
    ensures rows[0].metricName == name + "_count" && rows[0].value == p.count as real
  {
    var labels := Attributes(p.attributes);
    [Row(name + "_count", p.count as real, p.timeUnixNano, service, labels)]
    + (if p.sum != 0.0 then [Row(name + "_sum", p.sum, p.timeUnixNano, service, labels)] else [])
    + QuantileRows(name, service, p)
  }

  function NumberRowsOf(name: string, service: string): NumberDataPoint -> seq<Metric>
  {
    p => NumberRows(name, service, p)
  }

  function HistogramRowsOf(name: string, service: string): HistogramDataPoint -> seq<Metric>
  {
    p => HistogramRows(name, service, p)
  }

  function ExponentialHistogramRowsOf(name: string, service: string): ExponentialHistogramDataPoint -> seq<Metric>
  {
    p => ExponentialHistogramRows(name, service, p)
  }

  function SummaryRowsOf(name: string, service: string): SummaryDataPoint -> seq<Metric>
  {
    p => SummaryRows(name, service, p)
  }

  /** All rows `processMetric` would write for a metric, in order. */
  function MetricRows(m: OtlpMetric, service: string): (rows: seq<Metric>)
    ensures m.data.NoData? ==> rows == []
    ensures m.data.Gauge? ==> |rows| == |m.data.gaugePoints|
    ensures m.data.Sum? ==> |rows| == |m.data.sumPoints|
  {
    match m.data
    case NoData => []
    case Gauge(points) =>
      NumberPointsLayout(m.name, service, points);
      Concat(points, NumberRowsOf(m.name, service))
    case Sum(points) =>
      NumberPointsLayout(m.name, service, points);
      Concat(points, NumberRowsOf(m.name, service))
    case Histogram(points) => Concat(points, HistogramRowsOf(m.name, service))
    case ExponentialHistogram(points) => Concat(points, ExponentialHistogramRowsOf(m.name, service))
    case Summary(points) => Concat(points, SummaryRowsOf(m.name, service))
  }

  /** Gauge and sum metrics give one row per data point, under the
      metric's own name, with the point's value, time and attributes. */
  lemma NumberPointsLayout(name: string, service: string, points: seq<NumberDataPoint>)
    ensures var rows := Concat(points, NumberRowsOf(name, service));
      |rows| == |points|
      && forall i :: 0 <= i < |points| ==>
        rows[i].metricName == name && rows[i].value == NumericValue(points[i].value)
        && rows[i].timestamp == FromUint64(points[i].timeUnixNano)
        && rows[i].labels == Attributes(points[i].attributes) && rows[i].serviceName == service
  {
    ConcatSingles(points, NumberRowsOf(name, service));
  }

  /** A histogram point gives `_count`, then `_sum` exactly when the sum is
      present and non-zero, then one `_bucket` row per bucket that has an
      explicit bound, labelled `le` with that bound. */
  lemma HistogramLayout(name: string, service: string, p: HistogramDataPoint)
    ensures var rows := HistogramRows(name, service, p);
      var s := if HasHistogramSum(p.sum) then 1 else 0;
      |rows| == 1 + s + Min(|p.bucketCounts|, |p.explicitBounds|)
      && rows[0].metricName == name + "_count" && rows[0].value == p.count as real
      && (s == 1 ==> rows[1].metricName == name + "_sum" && rows[1].value == p.sum.value)
    ensures var rows := HistogramRows(name, service, p);
      var s := SumRowCount(p);
      forall i :: 0 <= i < Min(|p.bucketCounts|, |p.explicitBounds|) ==>
        rows[1 + s + i].metricName == name + "_bucket" && rows[1 + s + i].value == p.bucketCounts[i] as real
        && rows[1 + s + i].labels == AddLabel(Attributes(p.attributes), BucketLabel, p.explicitBounds[i])
    ensures var rows := HistogramRows(name, service, p);
      forall i :: 0 <= i < |rows| ==> rows[i].timestamp == FromUint64(p.timeUnixNano) && rows[i].serviceName == service
  {
    var rows := HistogramRows(name, service, p);
    var head := HistogramHead(name, service, p);
    var buckets := BucketRows(name, service, p);
    assert rows == head + buckets;
    assert rows[0] == head[0];
    assert HasHistogramSum(p.sum) ==> rows[1] == head[1];
    BucketsAfter(name, service, p, rows, head, buckets, SumRowCount(p));
    StampedConcat(head, buckets, FromUint64(p.timeUnixNano), service);
  }

  /** How many `_sum` rows a histogram point has: one when the sum is
      present and non-zero. */
  function SumRowCount(p: HistogramDataPoint): nat {
    if HasHistogramSum(p.sum) then 1 else 0
  }

  /** The rows of a histogram point before its buckets. */
  function HistogramHead(name: string, service: string, p: HistogramDataPoint): (head: seq<Metric>)
    ensures |head| == 1 + if HasHistogramSum(p.sum) then 1 else 0
    ensures forall i :: 0 <= i < |head| ==> head[i].timestamp == FromUint64(p.timeUnixNano) && head[i].serviceName == service
  {
    [Row(name + "_count", p.count as real, p.timeUnixNano, service, Attributes(p.attributes))]
      + (if HasHistogramSum(p.sum) then [Row(name + "_sum", p.sum.value, p.timeUnixNano, service, Attributes(p.attributes))] else [])
  }

  /** The bucket rows follow `s` rows after the `_count` row. */
  lemma BucketsAfter(name: string, service: string, p: HistogramDataPoint,
                     rows: seq<Metric>, head: seq<Metric>, buckets: seq<Metric>, s: nat)
    requires buckets == BucketRows(name, service, p)
    requires rows == head + buckets && |head| == 1 + s
    ensures forall i :: 0 <= i < Min(|p.bucketCounts|, |p.explicitBounds|) ==>
      rows[1 + s + i].metricName == name + "_bucket" && rows[1 + s + i].value == p.bucketCounts[i] as real
      && rows[1 + s + i].labels == AddLabel(Attributes(p.attributes), BucketLabel, p.explicitBounds[i])
  {
    forall i | 0 <= i < Min(|p.bucketCounts|, |p.explicitBounds|)
      ensures rows[1 + s + i].metricName == name + "_bucket" && rows[1 + s + i].value == p.bucketCounts[i] as real
        && rows[1 + s + i].labels == AddLabel(Attributes(p.attributes), BucketLabel, p.explicitBounds[i])
    {
      assert rows[1 + s + i] == buckets[i];
    }
  }

  /** Rows that all carry one time and service still do once concatenated. */
  lemma StampedConcat(head: seq<Metric>, tail: seq<Metric>, time: int, service: string)
    requires forall i :: 0 <= i < |head| ==> head[i].timestamp == time && head[i].serviceName == service
    requires forall i :: 0 <= i < |tail| ==> tail[i].timestamp == time && tail[i].serviceName == service
    ensures forall i :: 0 <= i < |head + tail| ==>
      (head + tail)[i].timestamp == time && (head + tail)[i].serviceName == service
  {
  }

  /** An exponential-histogram point gives only `_count` and a non-zero
      `_sum`: its buckets are not stored. */
  lemma ExponentialHistogramLayout(name: string, service: string, p: ExponentialHistogramDataPoint)
    ensures var rows := ExponentialHistogramRows(name, service, p);
      |rows| == (if HasHistogramSum(p.sum) then 2 else 1)
      && rows[0].metricName == name + "_count" && rows[0].value == p.count as real
      && (|rows| == 2 ==> rows[1].metricName == name + "_sum" && rows[1].value == p.sum.value)
  {
  }

  /** A summary point gives `_count`, `_sum` exactly when the sum is
      non-zero, and one `_quantile` row per quantile, labelled `quantile`. */
  lemma SummaryLayout(name: string, service: string, p: SummaryDataPoint)
    ensures var rows := SummaryRows(name, service, p);
      var s := if p.sum != 0.0 then 1 else 0;
      |rows| == 1 + s + |p.quantileValues|
      && rows[0].metricName == name + "_count" && rows[0].value == p.count as real
      && (s == 1 ==> rows[1].metricName == name + "_sum" && rows[1].value == p.sum)
      && forall i :: 0 <= i < |p.quantileValues| ==>
        rows[1 + s + i].metricName == name + "_quantile" && rows[1 + s + i].value == p.quantileValues[i].value
        && rows[1 + s + i].labels == AddLabel(Attributes(p.attributes), QuantileLabel, p.quantileValues[i].quantile)
  {
  }

  /** An unknown metric kind writes nothing. */
  lemma UnknownKindNoRows(m: OtlpMetric, service: string)
    requires m.data.NoData?
    ensures MetricRows(m, service) == []
  {
  }

  /** The number of rows inserted before the first rejected one. */
  function Accepted(rows: seq<Metric>, rejected: set<Metric>): (k: nat)
    ensures k <= |rows|
    ensures forall i :: 0 <= i < k ==> StoredMetric(rows[i]) !in rejected
    ensures k < |rows| ==> StoredMetric(rows[k]) in rejected
  {
    if rows == [] || StoredMetric(rows[0]) in rejected then 0
    else 1 + Accepted(rows[1..], rejected)
  }

  function StoredRows(rows: seq<Metric>): (r: seq<Metric>)
    ensures |r| == |rows|
  {
    seq(|rows|, i requires 0 <= i < |rows| => StoredMetric(rows[i]))
  }

  /** What a sequence of inserts that returns at the first error leaves in
      the table: the stored form of the rows before the rejected one. */
  function Written(rows: seq<Metric>, rejected: set<Metric>): seq<Metric>
  {
    StoredRows(rows[..Accepted(rows, rejected)])
  }

  lemma StoredRowsAppend(a: seq<Metric>, b: seq<Metric>)
    ensures StoredRows(a + b) == StoredRows(a) + StoredRows(b)
  {
  }

  /** Early return composes: rows after a rejection are never written, and
      a fully written prefix is followed by the rest's writes. */
  lemma {:induction false} AcceptedAppend(a: seq<Metric>, b: seq<Metric>, rejected: set<Metric>)
    ensures Accepted(a + b, rejected) == if Accepted(a, rejected) < |a| then Accepted(a, rejected) else |a| + Accepted(b, rejected)
  {
    if a == [] {
      assert a + b == b;
    } else {
      assert (a + b)[0] == a[0] && (a + b)[1..] == a[1..] + b;
      if StoredMetric(a[0]) !in rejected {
        AcceptedAppend(a[1..], b, rejected);
      }
    }
  }

  /** Rows after a rejected one are never written. */
  lemma WrittenAppendRejected(a: seq<Metric>, b: seq<Metric>, rejected: set<Metric>)
    requires Accepted(a, rejected) < |a|
    ensures Written(a + b, rejected) == Written(a, rejected)
  {
    AcceptedAppend(a, b, rejected);
    var k := Accepted(a, rejected);
    assert (a + b)[..k] == a[..k];
  }

  /** After a fully written prefix come the writes of the rest. */
  lemma WrittenAppendAll(a: seq<Metric>, b: seq<Metric>, rejected: set<Metric>)
    requires Accepted(a, rejected) == |a|
    ensures Written(a + b, rejected) == StoredRows(a) + Written(b, rejected)
  {
    AcceptedAppend(a, b, rejected);
    var k := Accepted(b, rejected);
    assert (a + b)[..|a| + k] == a + b[..k];
    StoredRowsAppend(a, b[..k]);
  }

  /** With no row rejected, every row is written in order. */
  lemma WrittenAll(rows: seq<Metric>, rejected: set<Metric>)
    requires forall i :: 0 <= i < |rows| ==> StoredMetric(rows[i]) !in rejected
    ensures Written(rows, rejected) == StoredRows(rows)
  {
    assert rows[..|rows|] == rows;
  }

  /** The rows one data point writes, stopping at the first failed insert. */
  method InsertRows(store: Store, rows: seq<Metric>) returns (ok: bool)
    modifies store
    ensures ok <==> Accepted(rows, store.faults.metrics) == |rows|
    ensures store.metrics == old(store.metrics) + Written(rows, store.faults.metrics)
    ensures store.traces == old(store.traces) && store.logs == old(store.logs)
  {
    var i := 0;
    while i < |rows|
      invariant i <= Accepted(rows, store.faults.metrics)
      invariant store.metrics == old(store.metrics) + StoredRows(rows[..i])
      invariant store.traces == old(store.traces) && store.logs == old(store.logs)
    {
      var inserted := store.InsertMetric(rows[i]);
      if !inserted {
        return false;
      }
      assert rows[..i + 1] == rows[..i] + [rows[i]];
      StoredRowsAppend(rows[..i], [rows[i]]);
      i := i + 1;
    }
    assert rows[..i] == rows;
    return true;
  }

  /** The table after inserting every row of `rows`, none of them rejected. */
  predicate AllWritten(table: seq<Metric>, before: seq<Metric>, rows: seq<Metric>, rejected: set<Metric>)
  {
    Accepted(rows, rejected) == |rows| && table == before + StoredRows(rows)
  }

  /** A point whose rows were all written extends the written prefix. */
  lemma PointWritten<P>(table: seq<Metric>, before: seq<Metric>, points: seq<P>, i: nat, rowsOf: P -> seq<Metric>, rejected: set<Metric>)
    requires i < |points|
    requires AllWritten(table, before, Concat(points[..i], rowsOf), rejected)
    requires Accepted(rowsOf(points[i]), rejected) == |rowsOf(points[i])|
    ensures AllWritten(table + Written(rowsOf(points[i]), rejected), before, Concat(points[..i + 1], rowsOf), rejected)
  {
    var done, rows := Concat(points[..i], rowsOf), rowsOf(points[i]);
    ConcatSnoc(points, i, rowsOf);
    AcceptedAppend(done, rows, rejected);
    StoredRowsAppend(done, rows);
    assert rows[..|rows|] == rows;
  }

  /** A rejected row ends the loop: nothing after it is written. */
  lemma RowsRejected(done: seq<Metric>, rows: seq<Metric>, rest: seq<Metric>, rejected: set<Metric>)
    requires Accepted(done, rejected) == |done| && Accepted(rows, rejected) < |rows|
    ensures Accepted(done + rows + rest, rejected) < |done + rows + rest|
    ensures Written(done + rows + rest, rejected) == StoredRows(done) + Written(rows, rejected)
  {
    AcceptedAppend(done, rows, rejected);
    AcceptedAppend(done + rows, rest, rejected);
    WrittenAppendAll(done, rows, rejected);
    WrittenAppendRejected(done + rows, rest, rejected);
  }

  lemma PointRejected<P>(table: seq<Metric>, before: seq<Metric>, points: seq<P>, i: nat, rowsOf: P -> seq<Metric>, rejected: set<Metric>)
    requires i < |points|
    requires AllWritten(table, before, Concat(points[..i], rowsOf), rejected)
    requires Accepted(rowsOf(points[i]), rejected) < |rowsOf(points[i])|
    ensures Accepted(Concat(points, rowsOf), rejected) < |Concat(points, rowsOf)|
    ensures table + Written(rowsOf(points[i]), rejected) == before + Written(Concat(points, rowsOf), rejected)
  {
    var done, rows, rest := Concat(points[..i], rowsOf), rowsOf(points[i]), Concat(points[i + 1..], rowsOf);
    ConcatAround(points, i, rowsOf);
    RowsRejected(done, rows, rest, rejected);
    AppendAssoc(before, StoredRows(done), Written(rows, rejected));
  }

  lemma AppendAssoc(a: seq<Metric>, b: seq<Metric>, c: seq<Metric>)
    ensures a + b + c == a + (b + c)
  {
  }

  lemma ConcatAround<T>(s: seq<T>, i: nat, f: T -> seq<Metric>)
    requires i < |s|
    ensures Concat(s, f) == Concat(s[..i], f) + f(s[i]) + Concat(s[i + 1..], f)
  {
    ConcatSnoc(s, i, f);
    ConcatSplit(s, i + 1, f);
  }

  /** When every point was written, so is the whole sequence. */
  lemma PointsWritten<P>(table: seq<Metric>, before: seq<Metric>, points: seq<P>, rowsOf: P -> seq<Metric>, rejected: set<Metric>)
    requires AllWritten(table, before, Concat(points[..|points|], rowsOf), rejected)
    ensures Accepted(Concat(points, rowsOf), rejected) == |Concat(points, rowsOf)|
    ensures table == before + Written(Concat(points, rowsOf), rejected)
  {
    ConcatAll(points, rowsOf);
    WrittenAll(Concat(points, rowsOf), rejected);
  }

  /** The loop over a metric's data points that `process*Metric` runs,
      returning at the first failed insert. */
  method ProcessPoints<P>(store: Store, points: seq<P>, rowsOf: P -> seq<Metric>) returns (ok: bool)
    modifies store
    ensures ok <==> Accepted(Concat(points, rowsOf), store.faults.metrics) == |Concat(points, rowsOf)|
    ensures store.metrics == old(store.metrics) + Written(Concat(points, rowsOf), store.faults.metrics)
    ensures store.traces == old(store.traces) && store.logs == old(store.logs)
  {
    var rejected := store.faults.metrics;
    for i := 0 to |points|
      invariant AllWritten(store.metrics, old(store.metrics), Concat(points[..i], rowsOf), rejected)
      invariant store.traces == old(store.traces) && store.logs == old(store.logs)
    {
      ghost var table := store.metrics;
      ok := InsertRows(store, rowsOf(points[i]));
      if !ok {
        PointRejected(table, old(store.metrics), points, i, rowsOf, rejected);
        return;
      }
      PointWritten(table, old(store.metrics), points, i, rowsOf, rejected);
    }
    PointsWritten(store.metrics, old(store.metrics), points, rowsOf, rejected);
    return true;
  }

  /** The rows of a whole sequence are those of a prefix followed by those
      of the rest. */
  lemma {:induction false} ConcatSplit<T>(s: seq<T>, i: nat, f: T -> seq<Metric>)
    requires i <= |s|
    ensures Concat(s, f) == Concat(s[..i], f) + Concat(s[i..], f)
    decreases |s|
  {
    if i < |s| {
      var init := s[..|s| - 1];
      ConcatSplit(init, i, f);
      assert init[..i] == s[..i];
      assert s[i..] == init[i..] + [s[|s| - 1]];
      assert s[i..][..|s[i..]| - 1] == init[i..];
    } else {
      assert s[..i] == s;
    }
  }

  /** `processMetric`: dispatch on the data kind; an unknown kind writes
      nothing and is not an error. */
  method ProcessMetric(store: Store, m: OtlpMetric, service: string) returns (ok: bool)
    modifies store
    ensures ok <==> Accepted(MetricRows(m, service), store.faults.metrics) == |MetricRows(m, service)|
    ensures store.metrics == old(store.metrics) + Written(MetricRows(m, service), store.faults.metrics)
    ensures store.traces == old(store.traces) && store.logs == old(store.logs)
  {
    match m.data
    case NoData =>
      ok := true;
    case Gauge(points) =>
      ok := ProcessPoints(store, points, NumberRowsOf(m.name, service));
    case Sum(points) =>
      ok := ProcessPoints(store, points, NumberRowsOf(m.name, service));
    case Histogram(points) =>
      ok := ProcessPoints(store, points, HistogramRowsOf(m.name, service));
    case ExponentialHistogram(points) =>
      ok := ProcessPoints(store, points, ExponentialHistogramRowsOf(m.name, service));
    case Summary(points) =>
      ok := ProcessPoints(store, points, SummaryRowsOf(m.name, service));
  }

  function MetricWrittenOf(service: string, rejected: set<Metric>): OtlpMetric -> seq<Metric>
  {
    (m: OtlpMetric) => Written(MetricRows(m, service), rejected)
  }

  function ScopeWrittenOf(service: string, rejected: set<Metric>): ScopeMetrics -> seq<Metric>
  {
    (scope: ScopeMetrics) => Concat(scope.metrics, MetricWrittenOf(service, rejected))
  }

  /** Everything one resource writes: each metric independently, under the
      resource's service name. */
  function ResourceWritten(rm: ResourceMetrics, rejected: set<Metric>): seq<Metric>
  {
    Concat(rm.scopeMetrics, ScopeWrittenOf(ExtractServiceName(rm.resource), rejected))
  }

  function ResourceWrittenOf(rejected: set<Metric>): ResourceMetrics -> seq<Metric>
  {
    (rm: ResourceMetrics) => ResourceWritten(rm, rejected)
  }

  /** The metric loop of one scope: a failing metric is logged and the loop
      goes on with the next one. */
  method ProcessScope(store: Store, scope: ScopeMetrics, service: string)
    modifies store
    ensures store.metrics == old(store.metrics) + ScopeWrittenOf(service, store.faults.metrics)(scope)
    ensures store.traces == old(store.traces) && store.logs == old(store.logs)
  {
    var rejected := store.faults.metrics;
    var metrics := scope.metrics;
    for j := 0 to |metrics|
      invariant store.metrics == old(store.metrics) + Concat(metrics[..j], MetricWrittenOf(service, rejected))
      invariant store.traces == old(store.traces) && store.logs == old(store.logs)
    {
      var ok := ProcessMetric(store, metrics[j], service);
      ConcatStep(old(store.metrics), metrics, j, MetricWrittenOf(service, rejected));
    }
    ConcatAll(metrics, MetricWrittenOf(service, rejected));
  }

  /** `processResourceMetric`: every scope under the resource's service name. */
  method ProcessResourceMetric(store: Store, rm: ResourceMetrics)
    modifies store
    ensures store.metrics == old(store.metrics) + ResourceWritten(rm, store.faults.metrics)
    ensures store.traces == old(store.traces) && store.logs == old(store.logs)
  {
    var service := ExtractServiceName(rm.resource);
    var rejected := store.faults.metrics;
    var scopes := rm.scopeMetrics;
    for i := 0 to |scopes|
      invariant store.metrics == old(store.metrics) + Concat(scopes[..i], ScopeWrittenOf(service, rejected))
      invariant store.traces == old(store.traces) && store.logs == old(store.logs)
    {
      ProcessScope(store, scopes[i], service);
      ConcatStep(old(store.metrics), scopes, i, ScopeWrittenOf(service, rejected));
    }
    ConcatAll(scopes, ScopeWrittenOf(service, rejected));
  }

  /** `Export`: a nil request is an invalid argument; otherwise every
      resource is processed and the response reports no rejected points. */
  method Export(store: Store, req: Option<ExportRequest>) returns (r: Result<PartialSuccess, GrpcError>)
    modifies store
    ensures req.None? ==> r.Failure? && r.error.InvalidArgument? && store.metrics == old(store.metrics)
    ensures req.Some? ==> (r == Success(PartialSuccess(0, ""))
      && store.metrics == old(store.metrics) + Concat(req.value.resourceMetrics, ResourceWrittenOf(store.faults.metrics)))
    ensures store.traces == old(store.traces) && store.logs == old(store.logs)
  {
    if req.None? {
      return Failure(InvalidArgument("request cannot be nil"));
    }
    var rms := req.value.resourceMetrics;
    var rejected := store.faults.metrics;
    for i := 0 to |rms|
      invariant store.metrics == old(store.metrics) + Concat(rms[..i], ResourceWrittenOf(rejected))
      invariant store.traces == old(store.traces) && store.logs == old(store.logs)
    {
      ProcessResourceMetric(store, rms[i]);
      ConcatStep(old(store.metrics), rms, i, ResourceWrittenOf(rejected));
    }
    ConcatAll(rms, ResourceWrittenOf(rejected));
    return Success(PartialSuccess(0, ""));
  }
}
