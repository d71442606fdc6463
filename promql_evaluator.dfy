/** The PromQL evaluator: fetch the rows of a query's metric, group them
    into one series per service, then apply the query's function and its
    aggregation. */
module PromqlEvaluator {
  import opened Wrappers
  import opened GoInts
  import opened GoStrings
  import opened Order
  import opened Storage
  import opened PromqlParser
  import opened PromqlSeries
  import opened PromqlWindows
  import opened PromqlAggregates

  datatype QueryResult = QueryResult(series: seq<MetricSeries>, resultType: string)

  datatype EvalError =
    | UnsupportedFunction(name: string)
    | UnsupportedAggregation(operation: string)
    | FunctionFailed(functionName: string, cause: EvalError)
    | AggregationFailed(cause: EvalError)

  const SupportedFunctions: set<string> := {"rate", "increase", "sum", "avg", "count", "min", "max"}
  const SupportedAggregations: set<string> := {"sum", "avg", "count", "min", "max"}

  /** `applyFunction`: dispatch on the function name. */
  function FunctionResult(series: seq<MetricSeries>, name: string, range: int, now: int): (r: Result<seq<MetricSeries>, EvalError>)
    ensures r.Failure? <==> name !in SupportedFunctions
    ensures r.Failure? ==> r.error == UnsupportedFunction(name)
  {
    if name == "rate" then Success(Rate(series, range))
    else if name == "increase" then Success(Increase(series, range))
    else if name == "sum" then Success(Sum(series))
    else if name == "avg" then Success(Avg(series))
    else if name == "count" then Success(Count(series, now))
    else if name == "min" then Success(Min(series, now))
    else if name == "max" then Success(Max(series, now))
    else Failure(UnsupportedFunction(name))
  }

  /** `applyAggregation`: dispatch on the operation; there is no `rate` or
      `increase` here. */
  function AggregationResult(series: seq<MetricSeries>, agg: Aggregation, now: int): (r: Result<seq<MetricSeries>, EvalError>)
    ensures r.Failure? <==> agg.operation !in SupportedAggregations
    ensures r.Failure? ==> r.error == UnsupportedAggregation(agg.operation)
  {
    var op := agg.operation;
    if op == "sum" then Success(Sum(series))
    else if op == "avg" then Success(Avg(series))
    else if op == "count" then Success(Count(series, now))
    else if op == "min" then Success(Min(series, now))
    else if op == "max" then Success(Max(series, now))
    else Failure(UnsupportedAggregation(op))
  }

  /** The series `getMetricSeries` returns for a query over a metrics table. */
  function Fetched(rows: seq<Metric>, query: Query, startTime: int, endTime: int, column: TimeColumn): seq<MetricSeries>
  {
    Group(Fetch(rows, query, Bound(startTime, column), Bound(endTime, column)), query.metricName, column)
  }

  /** After the function step: applied only when the query names one. */
  function AfterFunction(series: seq<MetricSeries>, query: Query, now: int): Result<seq<MetricSeries>, EvalError>
  {
    if query.functionName == "" then Success(series)
    else
      match FunctionResult(series, query.functionName, query.range, now)
      case Failure(e) => Failure(FunctionFailed(query.functionName, e))
      case Success(s) => Success(s)
  }

  /** After the aggregation step: applied only when the query has one. */
  function AfterAggregation(series: seq<MetricSeries>, query: Query, now: int): Result<seq<MetricSeries>, EvalError>
  {
    if query.aggregation.None? then Success(series)
    else
      match AggregationResult(series, query.aggregation.value, now)
      case Failure(e) => Failure(AggregationFailed(e))
      case Success(s) => Success(s)
  }

  /** `Evaluate`: fetch, then the function, then the aggregation; a result
      is always reported as a "vector". */
  function Evaluation(rows: seq<Metric>, query: Query, startTime: int, endTime: int, now: int, column: TimeColumn): (r: Result<QueryResult, EvalError>)
    ensures r.Success? ==> r.value.resultType == "vector"
  {
    match AfterFunction(Fetched(rows, query, startTime, endTime, column), query, now)
    case Failure(e) => Failure(e)
    case Success(s) =>
      match AfterAggregation(s, query, now)
      case Failure(e) => Failure(e)
      case Success(t) => Success(QueryResult(t, "vector"))
  }

  /** A query with neither a function nor an aggregation returns the fetched
      series as they are. */
  lemma EvaluatePlain(rows: seq<Metric>, query: Query, startTime: int, endTime: int, now: int, column: TimeColumn)
    requires query.functionName == "" && query.aggregation.None?
    ensures Evaluation(rows, query, startTime, endTime, now, column)
      == Success(QueryResult(Fetched(rows, query, startTime, endTime, column), "vector"))
  {
  }

  /** An unknown function name fails the whole evaluation, wrapped with the
      name. */
  lemma EvaluateUnsupportedFunction(rows: seq<Metric>, query: Query, startTime: int, endTime: int, now: int, column: TimeColumn)
    requires query.functionName != "" && query.functionName !in SupportedFunctions
    ensures Evaluation(rows, query, startTime, endTime, now, column)
      == Failure(FunctionFailed(query.functionName, UnsupportedFunction(query.functionName)))
  {
  }

  /** An unknown aggregation fails the evaluation once the function step
      has succeeded. */
  lemma EvaluateUnsupportedAggregation(rows: seq<Metric>, query: Query, startTime: int, endTime: int, now: int, column: TimeColumn)
    requires query.functionName == "" || query.functionName in SupportedFunctions
    requires query.aggregation.Some? && query.aggregation.value.operation !in SupportedAggregations
    ensures Evaluation(rows, query, startTime, endTime, now, column)
      == Failure(AggregationFailed(UnsupportedAggregation(query.aggregation.value.operation)))
  {
  }

  /** `rate` over fetched series yields points in ascending time in every
      series, because the rows arrive ordered by time. */
  lemma EvaluateRateAscending(rows: seq<Metric>, query: Query, startTime: int, endTime: int, now: int, column: TimeColumn, i: nat)
    requires query.functionName == "rate" && query.aggregation.None?
    requires i < |Fetched(rows, query, startTime, endTime, column)|
    ensures Evaluation(rows, query, startTime, endTime, now, column).Success?
    ensures AscendingPoints(Evaluation(rows, query, startTime, endTime, now, column).value.series[i].points)
  {
    var fetched := Fetch(rows, query, Bound(startTime, column), Bound(endTime, column));
    var g := Group(fetched, query.metricName, column);
    GroupAscending(fetched, query.metricName, column, i);
    RatePointsAscending(g[i].points, |g[i].points|, query.range);
  }

  // ---------------------------------------------------------------------
  // Reading the timestamp column

  /** A stored row falls inside the query window and matches the query. */
  predicate InWindow(row: Metric, query: Query, startTime: int, endTime: int) {
    Matches(row, query, startTime, endTime)
  }

  const WindowStart: int := 1_700_000_000 * NanosPerSecond
  const WindowEnd: int := WindowStart + Hour

  /** As written: the bounds are Unix seconds but the column holds
      nanoseconds, so a row stored inside a one-hour window of November
      2023 is not fetched. */
  lemma SecondsBoundsMissRow(rows: seq<Metric>, row: Metric, query: Query)
    requires row in rows && InWindow(row, query, WindowStart, WindowEnd)
    ensures row !in Fetch(rows, query, Bound(WindowStart, AsSeconds), Bound(WindowEnd, AsSeconds))
  {
    assert Bound(WindowEnd, AsSeconds) == 1_700_003_600;
  }

  /** Corrected: with the bounds and the points read in nanoseconds, every
      row of the window reaches the series of its service, at its own
      instant. */
  lemma NanosecondBoundsKeepRow(rows: seq<Metric>, row: Metric, query: Query, startTime: int, endTime: int)
    requires row in rows && InWindow(row, query, startTime, endTime)
    ensures var g := Fetched(rows, query, startTime, endTime, AsNanoseconds);
      var i := IndexOfLabels(g, ServiceLabels(row.serviceName));
      i < |g| && MetricPoint(row.timestamp, row.value, ServiceLabels(row.serviceName)) in g[i].points
  {
    var fetched := Fetch(rows, query, startTime, endTime);
    assert Bound(startTime, AsNanoseconds) == startTime && Bound(endTime, AsNanoseconds) == endTime;
    assert row in fetched;
    GroupPartitions(fetched, query.metricName, AsNanoseconds);
    PointsOfMember(fetched, row, AsNanoseconds);
  }

  // ---------------------------------------------------------------------
  // The series map of getMetricSeries

  /** `seriesMap` is an index of the series built so far: every series is
      labelled with its service alone and sits under that service's key,
      and every key leads to the series of its service. */
  ghost predicate KeysIndex(seriesMap: map<string, nat>, series: seq<MetricSeries>) {
    (forall j :: 0 <= j < |series| ==>
      (ServiceLabel in series[j].labels
      && series[j].labels == ServiceLabels(series[j].labels[ServiceLabel])
      && ServiceKey(series[j].labels[ServiceLabel]) in seriesMap
      && seriesMap[ServiceKey(series[j].labels[ServiceLabel])] == j))
    && (forall k :: k in seriesMap ==>
      (seriesMap[k] < |series|
      && ServiceLabel in series[seriesMap[k]].labels
      && k == ServiceKey(series[seriesMap[k]].labels[ServiceLabel])))
  }

  /** A key in the map leads to the first series of those labels. */
  lemma LookupHit(seriesMap: map<string, nat>, series: seq<MetricSeries>, service: string)
    requires KeysIndex(seriesMap, series)
    requires ServiceKey(service) in seriesMap
    ensures seriesMap[ServiceKey(service)] == IndexOfLabels(series, ServiceLabels(service))
  {
    var idx := seriesMap[ServiceKey(service)];
    ServiceKeyInjective(service, series[idx].labels[ServiceLabel]);
    assert series[idx].labels == ServiceLabels(service);
  }

  /** A key missing from the map has no series yet. */
  lemma LookupMiss(seriesMap: map<string, nat>, series: seq<MetricSeries>, service: string)
    requires KeysIndex(seriesMap, series)
    requires ServiceKey(service) !in seriesMap
    ensures IndexOfLabels(series, ServiceLabels(service)) == |series|
  {
    forall j | 0 <= j < |series|
      ensures series[j].labels != ServiceLabels(service)
    {
      assert ServiceKey(series[j].labels[ServiceLabel]) in seriesMap;
    }
  }

  /** Whatever order Go visits a fetched row's one-label map in, its key
      is the service key. */
  lemma SingleLabelKey(order: seq<string>, service: string)
    requires Enumerates(order, ServiceLabels(service))
    ensures SeriesKey(ServiceLabels(service), order) == ServiceKey(service)
  {
    SeriesKeyIgnoresOrder(ServiceLabels(service), order, [ServiceLabel]);
  }

  /** The key `createSeriesKey` gives a row's labels, whatever order the
      map is visited in. */
  lemma RowKey(key: string, service: string)
    requires exists order :: Enumerates(order, ServiceLabels(service)) && key == SeriesKey(ServiceLabels(service), order)
    ensures key == ServiceKey(service)
  {
    var order :| Enumerates(order, ServiceLabels(service)) && key == SeriesKey(ServiceLabels(service), order);
    SingleLabelKey(order, service);
  }

  /** A row of a known service appends to that service's series. */
  lemma AddRowAppends(series: seq<MetricSeries>, row: Metric, name: string, column: TimeColumn, idx: nat)
    requires idx == IndexOfLabels(series, ServiceLabels(row.serviceName)) && idx < |series|
    ensures AddRow(series, row, name, column)
      == series[idx := series[idx].(points := series[idx].points + [PointOf(row, column)])]
  {
  }

  /** A row of a new service opens an empty series and appends to it. */
  lemma AddRowOpens(series: seq<MetricSeries>, row: Metric, name: string, column: TimeColumn)
    requires IndexOfLabels(series, ServiceLabels(row.serviceName)) == |series|
    ensures var withNew := series + [MetricSeries(name, ServiceLabels(row.serviceName), [])];
      AddRow(series, row, name, column)
        == withNew[|series| := withNew[|series|].(points := withNew[|series|].points + [PointOf(row, column)])]
  {
    assert [] + [PointOf(row, column)] == [PointOf(row, column)];
  }

  /** Opening a series under a new key keeps the map an index. */
  lemma KeysIndexOpen(seriesMap: map<string, nat>, series: seq<MetricSeries>, name: string, service: string)
    requires KeysIndex(seriesMap, series) && ServiceKey(service) !in seriesMap
    ensures KeysIndex(seriesMap[ServiceKey(service) := |series|], series + [MetricSeries(name, ServiceLabels(service), [])])
  {
    var withNew := series + [MetricSeries(name, ServiceLabels(service), [])];
    var m := seriesMap[ServiceKey(service) := |series|];
    forall j | 0 <= j < |withNew|
      ensures ServiceLabel in withNew[j].labels
        && withNew[j].labels == ServiceLabels(withNew[j].labels[ServiceLabel])
        && ServiceKey(withNew[j].labels[ServiceLabel]) in m
        && m[ServiceKey(withNew[j].labels[ServiceLabel])] == j
    {
      KeysIndexOpenAt(seriesMap, series, name, service, j);
    }
    forall k | k in m
      ensures m[k] < |withNew| && ServiceLabel in withNew[m[k]].labels
        && k == ServiceKey(withNew[m[k]].labels[ServiceLabel])
    {
      KeysIndexOpenKey(seriesMap, series, name, service, k);
    }
  }

  lemma KeysIndexOpenAt(seriesMap: map<string, nat>, series: seq<MetricSeries>, name: string, service: string, j: nat)
    requires KeysIndex(seriesMap, series) && ServiceKey(service) !in seriesMap && j <= |series|
    ensures var withNew := series + [MetricSeries(name, ServiceLabels(service), [])];
      var m := seriesMap[ServiceKey(service) := |series|];
      ServiceLabel in withNew[j].labels
        && withNew[j].labels == ServiceLabels(withNew[j].labels[ServiceLabel])
        && ServiceKey(withNew[j].labels[ServiceLabel]) in m
        && m[ServiceKey(withNew[j].labels[ServiceLabel])] == j
  {
    var withNew := series + [MetricSeries(name, ServiceLabels(service), [])];
    if j < |series| {
      assert withNew[j] == series[j];
      assert ServiceKey(series[j].labels[ServiceLabel]) != ServiceKey(service);
    }
  }

  lemma KeysIndexOpenKey(seriesMap: map<string, nat>, series: seq<MetricSeries>, name: string, service: string, k: string)
    requires KeysIndex(seriesMap, series) && ServiceKey(service) !in seriesMap
    requires k in seriesMap[ServiceKey(service) := |series|]
    ensures var withNew := series + [MetricSeries(name, ServiceLabels(service), [])];
      var m := seriesMap[ServiceKey(service) := |series|];
      m[k] < |withNew| && ServiceLabel in withNew[m[k]].labels
        && k == ServiceKey(withNew[m[k]].labels[ServiceLabel])
  {
    var withNew := series + [MetricSeries(name, ServiceLabels(service), [])];
    if k != ServiceKey(service) {
      assert withNew[seriesMap[k]] == series[seriesMap[k]];
    }
  }

  /** Appending a point to a series keeps the map an index. */
  lemma KeysIndexAppend(seriesMap: map<string, nat>, series: seq<MetricSeries>, idx: nat, p: MetricPoint)
    requires KeysIndex(seriesMap, series) && idx < |series|
    ensures KeysIndex(seriesMap, series[idx := series[idx].(points := series[idx].points + [p])])
  {
    var updated := series[idx := series[idx].(points := series[idx].points + [p])];
    forall j | 0 <= j < |series| ensures updated[j].labels == series[j].labels {
    }
    KeysIndexSameLabels(seriesMap, series, updated);
  }

  /** The index only looks at the labels of the series. */
  lemma KeysIndexSameLabels(seriesMap: map<string, nat>, a: seq<MetricSeries>, b: seq<MetricSeries>)
    requires KeysIndex(seriesMap, a) && |a| == |b|
    requires forall j :: 0 <= j < |a| ==> a[j].labels == b[j].labels
    ensures KeysIndex(seriesMap, b)
  {
    forall k | k in seriesMap
      ensures seriesMap[k] < |b| && ServiceLabel in b[seriesMap[k]].labels
        && k == ServiceKey(b[seriesMap[k]].labels[ServiceLabel])
    {
      assert a[seriesMap[k]].labels == b[seriesMap[k]].labels;
    }
    forall j | 0 <= j < |b|
      ensures ServiceLabel in b[j].labels && ServiceKey(b[j].labels[ServiceLabel]) in seriesMap
    {
      assert a[j].labels == b[j].labels;
    }
  }

  class Evaluator {
    const db: Store

    constructor(db: Store)
      ensures this.db == db
    {
      this.db := db;
    }

    /** `createSeriesKey`: visit the labels in whatever order the map gives,
        format each as `k=v`, sort, and print as a Go slice. */
    method CreateSeriesKey(labels: map<string, string>) returns (key: string)
      ensures exists order :: Enumerates(order, labels) && key == SeriesKey(labels, order)
    {
      var keys: seq<string> := [];
      ghost var order: seq<string> := [];
      var remaining := labels.Keys;
      while remaining != {}
        invariant remaining <= labels.Keys
        invariant forall k :: k in order <==> k in labels && k !in remaining
        invariant forall i, j :: 0 <= i < j < |order| ==> order[i] != order[j]
        invariant keys == MapSeq(order, PairOf(labels))
        decreases |remaining|
      {
        var k :| k in remaining;
        MapSeqAppend(order, [k], PairOf(labels));
        keys := keys + [k + "=" + labels[k]];
        order := order + [k];
        remaining := remaining - {k};
      }
      assert Enumerates(order, labels);
      key := "[" + Join(SortStrings(keys), ' ') + "]";
    }

    /** `getMetricSeries`: the rows of the query in ascending time, each
        appended to the series of its service, created on first sight. */
    method GetMetricSeries(query: Query, startTime: int, endTime: int, column: TimeColumn) returns (result: seq<MetricSeries>)
      ensures result == Fetched(db.metrics, query, startTime, endTime, column)
    {
      var rows := Fetch(db.metrics, query, Bound(startTime, column), Bound(endTime, column));
      var seriesMap: map<string, nat> := map[];
      result := [];
      for i := 0 to |rows|
        invariant result == Group(rows[..i], query.metricName, column)
        invariant KeysIndex(seriesMap, result)
      {
        assert rows[..i + 1] == rows[..i] + [rows[i]];
        seriesMap, result := AddToGroup(seriesMap, result, rows[i], query.metricName, column);
      }
      assert rows[..|rows|] == rows;
    }

    /** One row of the grouping loop: look its series up by key, open the
        series when the key is new, append the row's point. */
    method AddToGroup(seriesMap: map<string, nat>, series: seq<MetricSeries>, row: Metric, name: string, column: TimeColumn)
      returns (newMap: map<string, nat>, newSeries: seq<MetricSeries>)
      requires KeysIndex(seriesMap, series)
      ensures newSeries == AddRow(series, row, name, column)
      ensures KeysIndex(newMap, newSeries)
    {
      var labels := ServiceLabels(row.serviceName);
      var key := CreateSeriesKey(labels);
      RowKey(key, row.serviceName);
      var idx: nat;
      if key !in seriesMap {
        LookupMiss(seriesMap, series, row.serviceName);
        KeysIndexOpen(seriesMap, series, name, row.serviceName);
        newMap := seriesMap[key := |series|];
        newSeries := series + [MetricSeries(name, labels, [])];
        idx := |series|;
        AddRowOpens(series, row, name, column);
      } else {
        LookupHit(seriesMap, series, row.serviceName);
        newMap, newSeries := seriesMap, series;
        idx := seriesMap[key];
        AddRowAppends(series, row, name, column, idx);
      }
      KeysIndexAppend(newMap, newSeries, idx, PointOf(row, column));
      newSeries := newSeries[idx := newSeries[idx].(points := newSeries[idx].points + [PointOf(row, column)])];
    }

    /** `applyRate`: one output series per input series. */
    method ApplyRate(series: seq<MetricSeries>, range: int) returns (result: seq<MetricSeries>)
      ensures result == Rate(series, range)
    {
      result := [];
      for i := 0 to |series|
        invariant |result| == i
        invariant forall m :: 0 <= m < i ==> result[m] == RateSeries(range)(series[m])
      {
        var s := series[i];
        var points := RateOfPoints(s.points, range);
        result := result + [MetricSeries(s.metricName, s.labels, points)];
      }
    }

    /** The loop of `applyRate` over the points of one series: the first
        point is skipped, every other one looks back for a partner. */
    method RateOfPoints(ps: seq<MetricPoint>, range: int) returns (points: seq<MetricPoint>)
      ensures points == RatePoints(ps, |ps|, range)
    {
      points := [];
      for j := 0 to |ps|
        invariant points == RatePoints(ps, j, range)
      {
        var point := RateOfPoint(ps, j, range);
        if point.Some? {
          points := points + [point.value];
        }
      }
    }

    /** One iteration of the loop of `applyRate`: the rate at point `j`,
        if it has a partner. */
    method RateOfPoint(ps: seq<MetricPoint>, j: nat, range: int) returns (point: Option<MetricPoint>)
      requires j < |ps|
      ensures point == RateAt(ps, j, range)
    {
      if j == 0 {
        return None;
      }
      var prev := ScanAfter(ps, j, RangeStart(ps[j].timestamp, range));
      if prev.None? {
        return None;
      }
      var p := ps[prev.value];
      var timeDiff := Seconds(Saturate64(ps[j].timestamp - p.timestamp));
      var valueDiff := ps[j].value - p.value;
      var rate := if timeDiff == 0.0 then 0.0 else valueDiff / timeDiff;
      return Some(MetricPoint(ps[j].timestamp, rate, ps[j].labels));
    }

    /** `for k := j - 1; k >= 0; k--`, stopping at the first point after
        `rangeStart`. */
    method ScanAfter(ps: seq<MetricPoint>, j: nat, rangeStart: int) returns (prev: Option<nat>)
      requires j <= |ps|
      ensures prev == LastAfter(ps, j, rangeStart)
    {
      var k := j - 1;
      while k >= 0
        invariant -1 <= k < j
        invariant LastAfter(ps, j, rangeStart) == LastAfter(ps, k + 1, rangeStart)
      {
        if ps[k].timestamp > rangeStart {
          return Some(k);
        }
        k := k - 1;
      }
      return None;
    }

    /** `applyIncrease`: one output series per input series. */
    method ApplyIncrease(series: seq<MetricSeries>, range: int) returns (result: seq<MetricSeries>)
      ensures result == Increase(series, range)
    {
      result := [];
      for i := 0 to |series|
        invariant |result| == i
        invariant forall m :: 0 <= m < i ==> result[m] == IncreaseSeries(range)(series[m])
      {
        var s := series[i];
        var points := IncreaseOfPoints(s.points, range);
        result := result + [MetricSeries(s.metricName, s.labels, points)];
      }
    }

    /** The loop of `applyIncrease` over the points of one series. */
    method IncreaseOfPoints(ps: seq<MetricPoint>, range: int) returns (points: seq<MetricPoint>)
      ensures points == IncreasePoints(ps, |ps|, range)
    {
      points := [];
      for j := 0 to |ps|
        invariant points == IncreasePoints(ps, j, range)
      {
        var start := ScanAtOrBefore(ps, j + 1, RangeStart(ps[j].timestamp, range));
        if start.Some? {
          var increase := ps[j].value - ps[start.value].value;
          points := points + [MetricPoint(ps[j].timestamp, increase, ps[j].labels)];
        }
      }
    }

    /** `for k := j; k >= 0; k--`, stopping at the first point before or at
        `rangeStart`; `hi` is `j + 1`. */
    method ScanAtOrBefore(ps: seq<MetricPoint>, hi: nat, rangeStart: int) returns (start: Option<nat>)
      requires hi <= |ps|
      ensures start == LastAtOrBefore(ps, hi, rangeStart)
    {
      var k := hi - 1;
      while k >= 0
        invariant -1 <= k < hi
        invariant LastAtOrBefore(ps, hi, rangeStart) == LastAtOrBefore(ps, k + 1, rangeStart)
      {
        if ps[k].timestamp < rangeStart || ps[k].timestamp == rangeStart {
          return Some(k);
        }
        k := k - 1;
      }
      return None;
    }

    /** The distinct timestamps of all points, ascending: `timestampMap`
        filled point by point, then its keys sorted. */
    method CollectTimes(series: seq<MetricSeries>) returns (times: seq<int>)
      ensures times == Times(AllPoints(series))
    {
      times := [];
      for i := 0 to |series|
        invariant times == Times(AllPoints(series[..i]))
      {
        var ps := series[i].points;
        PointsSoFarEnd(series, i);
        for j := 0 to |ps|
          invariant times == Times(PointsSoFar(series, i, j))
        {
          PointsSoFarStep(series, i, j);
          times := InsertInt(ps[j].timestamp, times);
        }
      }
      AllPointsEnd(series);
    }

    /** `applySum`: empty input back as it is, otherwise one unlabelled
        point per distinct time. */
    method ApplySum(series: seq<MetricSeries>) returns (result: seq<MetricSeries>)
      ensures result == Sum(series)
    {
      if |series| == 0 {
        return series;
      }
      var times := CollectTimes(series);
      var points: seq<MetricPoint> := [];
      for t := 0 to |times|
        invariant |points| == t
        invariant forall m :: 0 <= m < t ==> points[m] == SumPointOf(series)(times[m])
      {
        var sum, count := AccumulateAt(series, times[t]);
        points := points + [MetricPoint(times[t], sum, map[])];
      }
      assert points == MapSeq(times, SumPointOf(series));
      result := [MetricSeries(series[0].metricName, map[], points)];
    }

    /** `applyAvg`: as `applySum`, dividing by the number of series that
        contributed; 0 when none did. */
    method ApplyAvg(series: seq<MetricSeries>) returns (result: seq<MetricSeries>)
      ensures result == Avg(series)
    {
      if |series| == 0 {
        return series;
      }
      var times := CollectTimes(series);
      var points: seq<MetricPoint> := [];
      for t := 0 to |times|
        invariant |points| == t
        invariant forall m :: 0 <= m < t ==> points[m] == AvgPointOf(series)(times[m])
      {
        var sum, count := AccumulateAt(series, times[t]);
        var avg := 0.0;
        if count > 0 {
          avg := sum / count as real;
        }
        assert avg == AvgAt(series, times[t]);
        points := points + [MetricPoint(times[t], avg, map[])];
      }
      assert points == MapSeq(times, AvgPointOf(series));
      result := [MetricSeries(series[0].metricName, map[], points)];
    }

    /** The loop over the series at one time `ts`: each series adds its
        first point at `ts`, if any, and is then counted. */
    method AccumulateAt(series: seq<MetricSeries>, ts: int) returns (sum: real, count: nat)
      ensures sum == SumAt(series, ts) && count == CountAt(series, ts)
    {
      sum, count := 0.0, 0;
      for i := 0 to |series|
        invariant sum == SumAt(series[..i], ts) && count == CountAt(series[..i], ts)
      {
        var ps := series[i].points;
        var j := 0;
        while j < |ps|
          invariant j <= FirstIndexAt(ps, ts)
          invariant sum == SumAt(series[..i], ts) && count == CountAt(series[..i], ts)
        {
          if ps[j].timestamp == ts {
            sum := sum + ps[j].value;
            count := count + 1;
            break;
          }
          j := j + 1;
        }
        assert series[..i + 1][..i] == series[..i];
      }
      assert series[..|series|] == series;
    }

    /** `applyCount`. */
    method ApplyCount(series: seq<MetricSeries>, now: int) returns (result: seq<MetricSeries>)
      ensures result == Count(series, now)
    {
      var count := |series| as real;
      result := [MetricSeries("count", map[], [MetricPoint(now, count, map[])])];
    }

    /** `applyMin`: a running minimum seeded with `+Inf`. */
    method ApplyMin(series: seq<MetricSeries>, now: int) returns (result: seq<MetricSeries>)
      ensures result == Min(series, now)
    {
      if |series| == 0 {
        return series;
      }
      var min: Option<real> := None;
      for i := 0 to |series|
        invariant min == MinOf(AllPoints(series[..i]))
      {
        var ps := series[i].points;
        PointsSoFarEnd(series, i);
        for j := 0 to |ps|
          invariant min == MinOf(PointsSoFar(series, i, j))
        {
          PointsSoFarStep(series, i, j);
          if min.None? || ps[j].value < min.value {
            min := Some(ps[j].value);
          }
        }
      }
      AllPointsEnd(series);
      result := [MetricSeries(series[0].metricName, map[], [MetricPoint(now, Reported(min), map[])])];
    }

    /** `applyMax`: a running maximum seeded with `-Inf`. */
    method ApplyMax(series: seq<MetricSeries>, now: int) returns (result: seq<MetricSeries>)
      ensures result == Max(series, now)
    {
      if |series| == 0 {
        return series;
      }
      var max: Option<real> := None;
      for i := 0 to |series|
        invariant max == MaxOf(AllPoints(series[..i]))
      {
        var ps := series[i].points;
        PointsSoFarEnd(series, i);
        for j := 0 to |ps|
          invariant max == MaxOf(PointsSoFar(series, i, j))
        {
          PointsSoFarStep(series, i, j);
          if max.None? || ps[j].value > max.value {
            max := Some(ps[j].value);
          }
        }
      }
      AllPointsEnd(series);
      result := [MetricSeries(series[0].metricName, map[], [MetricPoint(now, Reported(max), map[])])];
    }

    /** `applyFunction`. */
    method ApplyFunction(series: seq<MetricSeries>, name: string, range: int, now: int) returns (r: Result<seq<MetricSeries>, EvalError>)
      ensures r == FunctionResult(series, name, range, now)
    {
      var s: seq<MetricSeries>;
      if name == "rate" {
        s := ApplyRate(series, range);
      } else if name == "increase" {
        s := ApplyIncrease(series, range);
      } else if name == "sum" {
        s := ApplySum(series);
      } else if name == "avg" {
        s := ApplyAvg(series);
      } else if name == "count" {
        s := ApplyCount(series, now);
      } else if name == "min" {
        s := ApplyMin(series, now);
      } else if name == "max" {
        s := ApplyMax(series, now);
      } else {
        return Failure(UnsupportedFunction(name));
      }
      return Success(s);
    }

    /** `applyAggregation`. */
    method ApplyAggregation(series: seq<MetricSeries>, agg: Aggregation, now: int) returns (r: Result<seq<MetricSeries>, EvalError>)
      ensures r == AggregationResult(series, agg, now)
    {
      var s: seq<MetricSeries>;
      var op := agg.operation;
      if op == "sum" {
        s := ApplySum(series);
      } else if op == "avg" {
        s := ApplyAvg(series);
      } else if op == "count" {
        s := ApplyCount(series, now);
      } else if op == "min" {
        s := ApplyMin(series, now);
      } else if op == "max" {
        s := ApplyMax(series, now);
      } else {
        return Failure(UnsupportedAggregation(op));
      }
      return Success(s);
    }

    /** `Evaluate`. */
    method Evaluate(query: Query, startTime: int, endTime: int, now: int, column: TimeColumn) returns (r: Result<QueryResult, EvalError>)
      ensures r == Evaluation(db.metrics, query, startTime, endTime, now, column)
    {
      var series := GetMetricSeries(query, startTime, endTime, column);
      if query.functionName != "" {
        var applied := ApplyFunction(series, query.functionName, query.range, now);
        if applied.Failure? {
          return Failure(FunctionFailed(query.functionName, applied.error));
        }
        series := applied.value;
      }
      if query.aggregation.Some? {
        var aggregated := ApplyAggregation(series, query.aggregation.value, now);
        if aggregated.Failure? {
          return Failure(AggregationFailed(aggregated.error));
        }
        series := aggregated.value;
      }
      return Success(QueryResult(series, "vector"));
    }
  }
}
