/** The metrics query endpoint: default the time range, parse, evaluate,
    and reshape the result into the Prometheus-style response; and the
    label listing of a metric. */
module QueryService {
  import opened Wrappers
  import opened GoInts
  import opened GoStrings
  import opened Storage
  import opened Otlp
  import opened PromqlParser
  import opened PromqlSeries
  import opened PromqlEvaluator

  /** The bound request; a zero `time.Time` is `ZeroTime`. */
  datatype QueryRequest = QueryRequest(query: string, startTime: int, endTime: int, step: string)

  /** One `[unix seconds, value]` pair. */
  datatype SamplePair = SamplePair(time: real, value: real)

  datatype PromSeries = PromSeries(metric: map<string, string>, values: seq<SamplePair>)

  datatype PromData = PromData(resultType: string, result: seq<PromSeries>)

  datatype QueryFailure =
    | InvalidRequest(bindError: string)
    | InvalidQuery(parseError: ParseError)
    | EvaluationFailed(evalError: EvalError)

  datatype QueryResponse = QueryResponse(code: int, status: string, data: Option<PromData>, error: Option<QueryFailure>)

  const StatusOK: int := 200
  const StatusBadRequest: int := 400
  const StatusInternalServerError: int := 500

  /** What `gin.Recovery()` answers when a handler panics: a bare 500, with
      no JSON body, so neither a status text nor data nor an error. */
  const Recovered: QueryResponse := QueryResponse(StatusInternalServerError, "", None, None)

  /** The label the metric name goes under. */
  const NameLabel: string := "__name__"

  // ---------------------------------------------------------------------
  // convertToPrometheusFormat

  function SampleOf(p: MetricPoint): SamplePair
  {
    SamplePair(UnixSeconds(p.timestamp) as real, p.value)
  }

  /** The `metric` object: `__name__` first, then every label over it. */
  function MetricOf(s: MetricSeries): map<string, string>
  {
    map[NameLabel := s.metricName] + s.labels
  }

  function PromSeriesOf(s: MetricSeries): PromSeries
  {
    PromSeries(MetricOf(s), MapSeq(s.points, SampleOf))
  }

  function PrometheusFormat(result: QueryResult): (data: PromData)
    ensures data.resultType == result.resultType && |data.result| == |result.series|
    ensures forall i :: 0 <= i < |data.result| ==>
      data.result[i].metric == MetricOf(result.series[i]) && |data.result[i].values| == |result.series[i].points|
  {
    PromData(result.resultType, MapSeq(result.series, PromSeriesOf))
  }

  /** One entry per series in order; one pair per point in order, carrying
      the point's Unix second and value; the result type is passed on. */
  lemma PrometheusFormatShape(result: QueryResult, i: nat, j: nat)
    requires i < |result.series| && j < |result.series[i].points|
    ensures var data := PrometheusFormat(result);
      data.resultType == result.resultType
      && |data.result| == |result.series|
      && |data.result[i].values| == |result.series[i].points|
      && data.result[i].values[j] == SamplePair(UnixSeconds(result.series[i].points[j].timestamp) as real, result.series[i].points[j].value)
  {
  }

  /** The `metric` object has the labels and `__name__`; a label called
      `__name__` wins over the metric name. */
  lemma MetricOfLabels(s: MetricSeries)
    ensures MetricOf(s).Keys == s.labels.Keys + {NameLabel}
    ensures forall k :: k in s.labels ==> MetricOf(s)[k] == s.labels[k]
    ensures NameLabel !in s.labels ==> MetricOf(s)[NameLabel] == s.metricName
  {
  }

  /** A fetched series shows its metric name and its service. */
  lemma FetchedSeriesMetric(name: string, service: string, points: seq<MetricPoint>)
    ensures MetricOf(MetricSeries(name, ServiceLabels(service), points)) == map[NameLabel := name, ServiceLabel := service]
  {
    var m := MetricOf(MetricSeries(name, ServiceLabels(service), points));
    assert m.Keys == {NameLabel, ServiceLabel};
  }

  // ---------------------------------------------------------------------
  // HandleMetricsQuery

  /** The validator's message for an empty `Query`. */
  const QueryMissing: string := "Key: 'QueryRequest.Query' Error:Field validation for 'Query' failed on the 'required' tag"

  /** `ShouldBindJSON` after decoding: `Query` carries `binding:"required"`,
      so a decoded body with an empty query does not bind. JSON decoding
      itself is not part of this model; its outcome is the input. */
  function BindQuery(decoded: Result<QueryRequest, string>): (r: Result<QueryRequest, string>)
    ensures r.Success? <==> decoded.Success? && decoded.value.query != ""
    ensures r.Success? || decoded.Failure? ==> r == decoded
    ensures decoded.Success? && decoded.value.query == "" ==> r == Failure(QueryMissing)
  {
    if decoded.Failure? then decoded
    else if decoded.value.query == "" then Failure(QueryMissing)
    else decoded
  }

  /** The window when the request leaves it unset: the hour before `now`. */
  function StartOf(req: QueryRequest, now: int): int
  {
    if req.startTime == ZeroTime then now - Hour else req.startTime
  }

  function EndOf(req: QueryRequest, now: int): int
  {
    if req.endTime == ZeroTime then now else req.endTime
  }

  /** The response of the endpoint over a metrics table. */
  /** A decoded query that the parser rejects with an error value. */
  predicate QueryRejected(decoded: Result<QueryRequest, string>, goParse: GoParseDuration)
  {
    decoded.Success? && Parse(decoded.value.query, goParse).Failure? && !Panicked(Parse(decoded.value.query, goParse).error)
  }

  /** A decoded query on which Go's parser panics. */
  predicate ParsePanics(decoded: Result<QueryRequest, string>, goParse: GoParseDuration)
  {
    decoded.Success? && Parse(decoded.value.query, goParse).Failure? && Panicked(Parse(decoded.value.query, goParse).error)
  }

  function MetricsQueryResponse(rows: seq<Metric>, decoded: Result<QueryRequest, string>, now: int, goParse: GoParseDuration, column: TimeColumn): (r: QueryResponse)
    ensures r.code == StatusOK <==> r.data.Some?
    ensures r.code == StatusBadRequest <==> decoded.Failure? || QueryRejected(decoded, goParse)
    ensures ParsePanics(decoded, goParse) ==> r == Recovered
    ensures r.data.Some? ==> r.status == "success" && r.error == None
    ensures decoded.Success? && decoded.value.query == "" ==> r.error == Some(InvalidRequest(QueryMissing))
  {
    var bound := BindQuery(decoded);
    if bound.Failure? then QueryResponse(StatusBadRequest, "error", None, Some(InvalidRequest(bound.error)))
    else
      var req := bound.value;
      match Parse(req.query, goParse)
      case Failure(e) => if Panicked(e) then Recovered else QueryResponse(StatusBadRequest, "error", None, Some(InvalidQuery(e)))
      case Success(query) =>
        match Evaluation(rows, query, StartOf(req, now), EndOf(req, now), now, column)
        case Failure(e) => QueryResponse(StatusInternalServerError, "error", None, Some(EvaluationFailed(e)))
        case Success(result) => QueryResponse(StatusOK, "success", Some(PrometheusFormat(result)), None)
  }

  /** The status codes: 400 for a request that does not bind or a query
      that does not parse, 500 for a parse that panics in Go or a failed
      evaluation, 200 with "success" and data otherwise. */
  lemma ResponseCodes(rows: seq<Metric>, decoded: Result<QueryRequest, string>, now: int, goParse: GoParseDuration, column: TimeColumn)
    ensures var r := MetricsQueryResponse(rows, decoded, now, goParse, column);
      (r.status == "success" <==> r.code == StatusOK)
      && (r.status == "error" <==> r.error.Some?)
      && (r.code == StatusOK <==> r.data.Some?)
      && (r.code == StatusBadRequest <==> decoded.Failure? || QueryRejected(decoded, goParse))
      && (r.code == StatusInternalServerError <==>
            (r.error.Some? && r.error.value.EvaluationFailed?) || ParsePanics(decoded, goParse))
      && (r.code == StatusInternalServerError && r.error.None? <==> r == Recovered)
  {
  }

  /** A query whose closing brace or bracket comes before its opening one
      panics in Go's slice expression, and the recovered handler answers a
      bare 500 rather than the 400 of a query that does not parse. */
  lemma PanickingQueryRecovered(rows: seq<Metric>, req: QueryRequest, now: int, goParse: GoParseDuration, column: TimeColumn)
    requires req.query == "a}b{" || req.query == "rate" + "(" + "x]y[" + ")"
    ensures MetricsQueryResponse(rows, Success(req), now, goParse, column) == Recovered
  {
    SelectorPanics(goParse);
    ArgumentPanics(goParse);
  }

  /** A set bound is kept, an unset one defaults to the last hour. */
  lemma DefaultWindow(req: QueryRequest, now: int)
    ensures req.startTime != ZeroTime ==> StartOf(req, now) == req.startTime
    ensures req.startTime == ZeroTime ==> StartOf(req, now) == now - 3600 * NanosPerSecond
    ensures req.endTime != ZeroTime ==> EndOf(req, now) == req.endTime
    ensures req.endTime == ZeroTime ==> EndOf(req, now) == now
  {
  }

  // ---------------------------------------------------------------------
  // GetMetricLabels

  /** `json.Unmarshal` of a row's labels into `map[string]string`: fails on
      any value that is not a string; a JSON null becomes "". */
  function DecodeStringMap(labels: map<string, AttrValue>): (r: Option<map<string, string>>)
    ensures r.Some? <==> forall k :: k in labels ==> labels[k].Str? || labels[k].Null?
    ensures r.Some? ==> (r.value.Keys == labels.Keys
      && forall k :: k in labels ==> r.value[k] == (if labels[k].Str? then labels[k].s else ""))
  {
    if forall k :: k in labels ==> labels[k].Str? || labels[k].Null? then
      Some(map k | k in labels :: if labels[k].Str? then labels[k].s else "")
    else None
  }

  /** The values observed so far, with one decoded label map added. */
  function AddLabels(acc: map<string, set<string>>, labels: map<string, string>): map<string, set<string>>
  {
    map k | k in acc.Keys + labels.Keys :: (if k in acc then acc[k] else {}) + (if k in labels then {labels[k]} else {})
  }

  lemma AddNothing(acc: map<string, set<string>>)
    ensures AddLabels(acc, map[]) == acc
  {
    var r := AddLabels(acc, map[]);
    forall k | k in acc ensures r[k] == acc[k] {
      assert r[k] == acc[k] + {};
    }
  }

  /** The pairs the inner loop has visited grow by the one it takes next. */
  lemma MarkDone(labels: map<string, string>, done: map<string, string>, remaining: set<string>, key: string)
    requires remaining <= labels.Keys && key in remaining
    requires done.Keys == labels.Keys - remaining
    requires forall k :: k in done ==> done[k] == labels[k]
    ensures key !in done
    ensures done[key := labels[key]].Keys == labels.Keys - (remaining - {key})
    ensures forall k :: k in done[key := labels[key]] ==> done[key := labels[key]][k] == labels[k]
  {
  }

  /** Adding one more pair marks its value under its key. */
  lemma AddOne(acc: map<string, set<string>>, labels: map<string, string>, key: string, v: string)
    requires key !in labels
    ensures var before := AddLabels(acc, labels);
      AddLabels(acc, labels[key := v]) == before[key := (if key in before then before[key] else {}) + {v}]
  {
    var before := AddLabels(acc, labels);
    var after := AddLabels(acc, labels[key := v]);
    var expected := before[key := (if key in before then before[key] else {}) + {v}];
    assert after.Keys == expected.Keys;
    forall k | k in after ensures after[k] == expected[k] {
      if k != key {
        assert after[k] == before[k];
      }
    }
  }

  /** `labelValues` after the rows of `metricName`. */
  function LabelValues(rows: seq<Metric>, metricName: string): (values: map<string, set<string>>)
    ensures forall k :: k in values ==> values[k] != {}
  {
    if rows == [] then map[]
    else
      var acc := LabelValues(rows[..|rows| - 1], metricName);
      var last := rows[|rows| - 1];
      if last.metricName != metricName then acc
      else match DecodeStringMap(last.labels)
        case None => acc
        case Some(labels) => AddLabels(acc, labels)
  }

  /** A row of the metric whose labels decode and carry the pair `k`, `v`. */
  predicate RowShows(row: Metric, metricName: string, k: string, v: string) {
    row.metricName == metricName
      && DecodeStringMap(row.labels).Some?
      && k in DecodeStringMap(row.labels).value
      && DecodeStringMap(row.labels).value[k] == v
  }

  /** Some row shows the pair. */
  ghost predicate Shows(rows: seq<Metric>, metricName: string, k: string, v: string) {
    exists i :: 0 <= i < |rows| && RowShows(rows[i], metricName, k, v)
  }

  /** A pair is marked after `AddLabels` exactly when it was before or the
      labels carry it. */
  lemma AddLabelsHas(acc: map<string, set<string>>, labels: map<string, string>, k: string, v: string)
    ensures (k in AddLabels(acc, labels) && v in AddLabels(acc, labels)[k])
      <==> (k in acc && v in acc[k]) || (k in labels && labels[k] == v)
  {
  }

  /** One more row adds exactly the pairs it shows. */
  lemma LabelValuesSnoc(rows: seq<Metric>, metricName: string, k: string, v: string)
    requires rows != []
    ensures var before := LabelValues(rows[..|rows| - 1], metricName);
      var after := LabelValues(rows, metricName);
      (k in after && v in after[k]) <==> (k in before && v in before[k]) || RowShows(rows[|rows| - 1], metricName, k, v)
  {
    var last := rows[|rows| - 1];
    if last.metricName == metricName && DecodeStringMap(last.labels).Some? {
      AddLabelsHas(LabelValues(rows[..|rows| - 1], metricName), DecodeStringMap(last.labels).value, k, v);
    }
  }

  /** Some row shows the pair exactly when an earlier one or the last one does. */
  lemma ShowsSnoc(rows: seq<Metric>, metricName: string, k: string, v: string)
    requires rows != []
    ensures Shows(rows, metricName, k, v)
      <==> Shows(rows[..|rows| - 1], metricName, k, v) || RowShows(rows[|rows| - 1], metricName, k, v)
  {
    var init := rows[..|rows| - 1];
    if Shows(init, metricName, k, v) {
      var i :| 0 <= i < |init| && RowShows(init[i], metricName, k, v);
      assert rows[i] == init[i];
    }
    if Shows(rows, metricName, k, v) {
      var i :| 0 <= i < |rows| && RowShows(rows[i], metricName, k, v);
      if i < |init| {
        assert init[i] == rows[i];
      }
    }
  }

  /** A value is listed under a key exactly when some row of the metric
      whose labels decode carries that pair; a row with a non-string label
      contributes nothing. */
  lemma {:induction false} LabelValuesIff(rows: seq<Metric>, metricName: string, k: string, v: string)
    ensures (k in LabelValues(rows, metricName) && v in LabelValues(rows, metricName)[k]) <==> Shows(rows, metricName, k, v)
  {
    if rows != [] {
      LabelValuesIff(rows[..|rows| - 1], metricName, k, v);
      LabelValuesSnoc(rows, metricName, k, v);
      ShowsSnoc(rows, metricName, k, v);
    }
  }

  /** Every key listed has at least one value. */
  lemma {:induction false} LabelValuesNonEmpty(rows: seq<Metric>, metricName: string, k: string)
    requires k in LabelValues(rows, metricName)
    ensures LabelValues(rows, metricName)[k] != {}
  {
    var init := rows[..|rows| - 1];
    if k in LabelValues(init, metricName) {
      LabelValuesNonEmpty(init, metricName, k);
    }
  }

  class Service {
    const db: Store
    const evaluator: Evaluator

    constructor(db: Store)
      ensures this.db == db && evaluator.db == db
    {
      this.db := db;
      evaluator := new Evaluator(db);
    }

    /** `HandleMetricsQuery`. `decoded` is the JSON decoding of the body,
        which `BindQuery` completes; `now` is the clock reading and
        `column` how the evaluator reads stored times. */
    method HandleMetricsQuery(decoded: Result<QueryRequest, string>, now: int, goParse: GoParseDuration, column: TimeColumn) returns (resp: QueryResponse)
      requires evaluator.db == db
      ensures resp == MetricsQueryResponse(db.metrics, decoded, now, goParse, column)
    {
      var bound := BindQuery(decoded);
      if bound.Failure? {
        return QueryResponse(StatusBadRequest, "error", None, Some(InvalidRequest(bound.error)));
      }
      var req := bound.value;
      var startTime, endTime := req.startTime, req.endTime;
      if startTime == ZeroTime {
        startTime := now - Hour;
      }
      if endTime == ZeroTime {
        endTime := now;
      }
      assert startTime == StartOf(req, now) && endTime == EndOf(req, now);
      var parsed := Parse(req.query, goParse);
      if parsed.Failure? {
        if Panicked(parsed.error) {
          return Recovered;
        }
        return QueryResponse(StatusBadRequest, "error", None, Some(InvalidQuery(parsed.error)));
      }
      var result := evaluator.Evaluate(parsed.value, startTime, endTime, now, column);
      if result.Failure? {
        return QueryResponse(StatusInternalServerError, "error", None, Some(EvaluationFailed(result.error)));
      }
      var data := ConvertToPrometheusFormat(result.value);
      return QueryResponse(StatusOK, "success", Some(data), None);
    }

    /** `convertToPrometheusFormat`. */
    method ConvertToPrometheusFormat(result: QueryResult) returns (data: PromData)
      ensures data == PrometheusFormat(result)
    {
      var entries: seq<PromSeries> := [];
      for i := 0 to |result.series|
        invariant |entries| == i
        invariant forall m :: 0 <= m < i ==> entries[m] == PromSeriesOf(result.series[m])
      {
        var series := result.series[i];
        var values: seq<SamplePair> := [];
        for j := 0 to |series.points|
          invariant |values| == j
          invariant forall m :: 0 <= m < j ==> values[m] == SampleOf(series.points[m])
        {
          var point := series.points[j];
          values := values + [SamplePair(UnixSeconds(point.timestamp) as real, point.value)];
        }
        var metric := MetricObject(series);
        entries := entries + [PromSeries(metric, values)];
      }
      return PromData(result.resultType, entries);
    }

    /** The `metric` object of one series: `__name__`, then each label copied
        over it in map order. */
    method MetricObject(series: MetricSeries) returns (metric: map<string, string>)
      ensures metric == MetricOf(series)
    {
      metric := map[NameLabel := series.metricName];
      var remaining := series.labels.Keys;
      while remaining != {}
        invariant remaining <= series.labels.Keys
        invariant forall k :: k in metric <==> k == NameLabel || (k in series.labels && k !in remaining)
        invariant forall k :: k in series.labels && k !in remaining ==> metric[k] == series.labels[k]
        invariant NameLabel in remaining || NameLabel !in series.labels ==> metric[NameLabel] == series.metricName
        decreases |remaining|
      {
        var k :| k in remaining;
        metric := metric[k := series.labels[k]];
        remaining := remaining - {k};
      }
    }

    /** `GetMetricLabels`: accumulate the values of every key over the rows
        of the metric whose labels decode, then list each key's values
        once. */
    method GetMetricLabels(metricName: string) returns (result: map<string, seq<string>>)
      ensures result.Keys == LabelValues(db.metrics, metricName).Keys
      ensures forall k :: k in result ==>
        (forall v :: v in result[k] <==> v in LabelValues(db.metrics, metricName)[k])
        && (forall i, j :: 0 <= i < j < |result[k]| ==> result[k][i] != result[k][j])
    {
      var rows := db.metrics;
      var labelValues: map<string, set<string>> := map[];
      for i := 0 to |rows|
        invariant labelValues == LabelValues(rows[..i], metricName)
      {
        assert rows[..i + 1][..i] == rows[..i];
        var row := rows[i];
        if row.metricName != metricName {
          continue;
        }
        var decoded := DecodeStringMap(row.labels);
        if decoded.None? {
          continue;
        }
        labelValues := AddPairs(labelValues, decoded.value);
      }
      assert rows[..|rows|] == rows;
      result := map[];
      var keys := labelValues.Keys;
      while keys != {}
        invariant keys <= labelValues.Keys
        invariant result.Keys == labelValues.Keys - keys
        invariant forall k :: k in result ==>
          (forall v :: v in result[k] <==> v in labelValues[k])
          && (forall i, j :: 0 <= i < j < |result[k]| ==> result[k][i] != result[k][j])
        decreases |keys|
      {
        var key :| key in keys;
        var valueSlice := ListSet(labelValues[key]);
        result := result[key := valueSlice];
        keys := keys - {key};
      }
    }

    /** The inner loop over one row's labels: mark each value under its key. */
    method AddPairs(labelValues: map<string, set<string>>, labels: map<string, string>) returns (updated: map<string, set<string>>)
      ensures updated == AddLabels(labelValues, labels)
    {
      ghost var done: map<string, string> := map[];
      AddNothing(labelValues);
      updated := labelValues;
      var remaining := labels.Keys;
      while remaining != {}
        invariant remaining <= labels.Keys
        invariant done.Keys == labels.Keys - remaining
        invariant forall k :: k in done ==> done[k] == labels[k]
        invariant updated == AddLabels(labelValues, done)
        decreases |remaining|
      {
        var key :| key in remaining;
        MarkDone(labels, done, remaining, key);
        AddOne(labelValues, done, key, labels[key]);
        var values := if key in updated then updated[key] else {};
        updated := updated[key := values + {labels[key]}];
        done := done[key := labels[key]];
        remaining := remaining - {key};
      }
      assert done == labels;
    }

    /** `for value := range values`: each member once, in map order. */
    method ListSet(values: set<string>) returns (list: seq<string>)
      ensures forall v :: v in list <==> v in values
      ensures forall i, j :: 0 <= i < j < |list| ==> list[i] != list[j]
    {
      list := [];
      var remaining := values;
      while remaining != {}
        invariant remaining <= values
        invariant forall v :: v in list <==> v in values && v !in remaining
        invariant forall i, j :: 0 <= i < j < |list| ==> list[i] != list[j]
        decreases |remaining|
      {
        var v :| v in remaining;
        list := list + [v];
        remaining := remaining - {v};
      }
    }
  }
}
