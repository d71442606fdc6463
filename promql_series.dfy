/** The evaluator's data: points and series, the rows it fetches from the
    metrics table, how it keys and groups them into series. */
module PromqlSeries {
  import opened Wrappers
  import opened GoInts
  import opened GoStrings
  import opened Order
  import opened Otlp
  import opened Storage
  import opened PromqlParser

  datatype MetricPoint = MetricPoint(timestamp: int, value: real, labels: map<string, string>)
  datatype MetricSeries = MetricSeries(metricName: string, labels: map<string, string>, points: seq<MetricPoint>)

  /** How the evaluator reads the table's `timestamp` column. The code reads
      it as Unix seconds (bounds from `Unix()`, points from `time.Unix(ts, 0)`);
      the column holds `UnixNano()`. */
  datatype TimeColumn = AsSeconds | AsNanoseconds

  function NanosPerUnit(column: TimeColumn): (n: int)
    ensures n > 0
  {
    if column.AsSeconds? then NanosPerSecond else 1
  }

  // ---------------------------------------------------------------------
  // createSeriesKey

  /** `order` lists each key of `labels` once: one order in which Go's
      `range` may visit the map. */
  ghost predicate Enumerates(order: seq<string>, labels: map<string, string>) {
    (forall i, j :: 0 <= i < j < |order| ==> order[i] != order[j])
    && (forall k :: k in order <==> k in labels)
  }

  function PairOf(labels: map<string, string>): string -> string
  {
    (k: string) => k + "=" + (if k in labels then labels[k] else "")
  }

  function MapSeq<T, U>(s: seq<T>, f: T -> U): (r: seq<U>)
    ensures |r| == |s|
    ensures forall i :: 0 <= i < |s| ==> r[i] == f(s[i])
  {
    if s == [] then [] else [f(s[0])] + MapSeq(s[1..], f)
  }

  /** The key `createSeriesKey` builds: the sorted `k=v` strings, printed
      as a Go slice. */
  function SeriesKey(labels: map<string, string>, order: seq<string>): string
  {
    "[" + Join(SortStrings(MapSeq(order, PairOf(labels))), ' ') + "]"
  }

  lemma {:induction false} MapSeqAppend<T, U>(a: seq<T>, b: seq<T>, f: T -> U)
    ensures MapSeq(a + b, f) == MapSeq(a, f) + MapSeq(b, f)
  {
    if a != [] {
      assert (a + b)[1..] == a[1..] + b;
      MapSeqAppend(a[1..], b, f);
    }
  }

  /** Mapping keeps permutations: rearranged inputs give rearranged outputs. */
  lemma {:induction false} MapSeqPermutation<T, U>(a: seq<T>, b: seq<T>, f: T -> U)
    requires multiset(a) == multiset(b)
    ensures multiset(MapSeq(a, f)) == multiset(MapSeq(b, f))
    decreases |a|
  {
    assert |a| == |multiset(a)| == |multiset(b)| == |b|;
    if a != [] {
      var j := PermutationRest(a, b);
      MapSeqPermutation(a[1..], RemoveAt(b, j), f);
      MapSeqRemoveAt(b, j, f);
      assert MapSeq(a, f) == [f(a[0])] + MapSeq(a[1..], f);
    }
  }

  /** The head of `a` sits somewhere in its rearrangement `b`; the rest of
      `a` is a rearrangement of `b` without it. */
  lemma PermutationRest<T>(a: seq<T>, b: seq<T>) returns (j: nat)
    requires a != [] && multiset(a) == multiset(b)
    ensures j < |b| && b[j] == a[0]
    ensures multiset(RemoveAt(b, j)) == multiset(a[1..])
  {
    assert a == [a[0]] + a[1..];
    assert multiset(a) == multiset{a[0]} + multiset(a[1..]);
    assert a[0] in multiset(b);
    j :| 0 <= j < |b| && b[j] == a[0];
  }

  /** `b` without its element at `j`. */
  function RemoveAt<T>(b: seq<T>, j: nat): (r: seq<T>)
    requires j < |b|
    ensures |r| == |b| - 1
    ensures multiset(r) == multiset(b) - multiset{b[j]}
  {
    assert b == b[..j] + [b[j]] + b[j + 1..];
    b[..j] + b[j + 1..]
  }

  lemma MapSeqRemoveAt<T, U>(b: seq<T>, j: nat, f: T -> U)
    requires j < |b|
    ensures multiset(MapSeq(b, f)) == multiset(MapSeq(RemoveAt(b, j), f)) + multiset{f(b[j])}
  {
    var p, q := b[..j], b[j + 1..];
    assert b == p + ([b[j]] + q);
    assert RemoveAt(b, j) == p + q;
    MapSeqAppend(p, [b[j]] + q, f);
    MapSeqAppend([b[j]], q, f);
    MapSeqAppend(p, q, f);
    var mp, mq := MapSeq(p, f), MapSeq(q, f);
    assert MapSeq([b[j]], f) == [f(b[j])];
    calc {
      multiset(MapSeq(b, f));
      multiset(mp + ([f(b[j])] + mq));
      multiset(mp) + (multiset{f(b[j])} + multiset(mq));
      multiset(mp + mq) + multiset{f(b[j])};
    }
  }

  /** In a list without repeats every element occurs once. */
  lemma {:induction false} DistinctOnce(s: seq<string>, x: string)
    requires forall i, j :: 0 <= i < j < |s| ==> s[i] != s[j]
    ensures multiset(s)[x] == if x in s then 1 else 0
  {
    if s != [] {
      assert s == [s[0]] + s[1..];
      DistinctOnce(s[1..], x);
      assert s[0] !in s[1..];
    }
  }

  /** Equal label maps give equal keys, whatever order the map is visited in. */
  lemma SeriesKeyIgnoresOrder(labels: map<string, string>, a: seq<string>, b: seq<string>)
    requires Enumerates(a, labels) && Enumerates(b, labels)
    ensures SeriesKey(labels, a) == SeriesKey(labels, b)
  {
    forall x ensures multiset(a)[x] == multiset(b)[x] {
      DistinctOnce(a, x);
      DistinctOnce(b, x);
    }
    assert multiset(a) == multiset(b);
    MapSeqPermutation(a, b, PairOf(labels));
    SortIgnoresOrder(MapSeq(a, PairOf(labels)), MapSeq(b, PairOf(labels)));
  }

  /** The one label every fetched series carries. */
  const ServiceLabel: string := "service"

  function ServiceLabels(service: string): map<string, string> { map[ServiceLabel := service] }

  /** The key of a fetched row's label set. */
  function ServiceKey(service: string): (key: string)
    ensures key == "[service=" + service + "]"
  {
    assert SortStrings(["service=" + service]) == ["service=" + service];
    SeriesKey(ServiceLabels(service), [ServiceLabel])
  }

  /** Rows of different services never share a series. */
  lemma ServiceKeyInjective(a: string, b: string)
    requires ServiceKey(a) == ServiceKey(b)
    ensures a == b
  {
    assert a == ServiceKey(a)[9..|ServiceKey(a)| - 1];
    assert b == ServiceKey(b)[9..|ServiceKey(b)| - 1];
  }

  // ---------------------------------------------------------------------
  // The rows getMetricSeries reads

  /** The SQL filter: the metric name, the time bounds and one
      `JSON_EXTRACT(labels, '$.k') = v` per query label. */
  predicate Matches(row: Metric, query: Query, lo: int, hi: int) {
    row.metricName == query.metricName && lo <= row.timestamp <= hi
    && forall k :: k in query.labels ==> k in row.labels && row.labels[k] == Str(query.labels[k])
  }

  function Filter(rows: seq<Metric>, query: Query, lo: int, hi: int): (r: seq<Metric>)
    ensures forall m :: m in r <==> m in rows && Matches(m, query, lo, hi)
  {
    if rows == [] then []
    else
      assert rows == [rows[0]] + rows[1..];
      var rest := Filter(rows[1..], query, lo, hi);
      if Matches(rows[0], query, lo, hi) then [rows[0]] + rest else rest
  }

  /** The fetched rows, `ORDER BY timestamp ASC`. */
  function Fetch(rows: seq<Metric>, query: Query, lo: int, hi: int): (r: seq<Metric>)
    ensures SortedBy(r, MetricTime)
    ensures forall m :: m in r <==> m in rows && Matches(m, query, lo, hi)
  {
    var r := SortBy(Filter(rows, query, lo, hi), MetricTime);
    assert forall m :: m in r <==> m in multiset(r);
    r
  }

  /** The bounds `startTime.Unix()` and `endTime.Unix()` as the column is read. */
  function Bound(t: int, column: TimeColumn): int { t / NanosPerUnit(column) }

  // ---------------------------------------------------------------------
  // Grouping

  /** The point a row becomes: its time as read, its value and the service label. */
  function PointOf(row: Metric, column: TimeColumn): MetricPoint
  {
    MetricPoint(row.timestamp * NanosPerUnit(column), row.value, ServiceLabels(row.serviceName))
  }

  /** The first series carrying `labels`, or `|series|` when none does. */
  function IndexOfLabels(series: seq<MetricSeries>, labels: map<string, string>): (i: nat)
    ensures i <= |series|
    ensures i < |series| ==> series[i].labels == labels
    ensures forall j :: 0 <= j < i ==> series[j].labels != labels
  {
    if series == [] then 0
    else if series[0].labels == labels then 0
    else 1 + IndexOfLabels(series[1..], labels)
  }

  /** One row of the grouping loop: append to the series of its labels, or
      open a new series at the end. */
  function AddRow(series: seq<MetricSeries>, row: Metric, name: string, column: TimeColumn): seq<MetricSeries>
  {
    var labels := ServiceLabels(row.serviceName);
    var i := IndexOfLabels(series, labels);
    if i < |series| then series[i := series[i].(points := series[i].points + [PointOf(row, column)])]
    else series + [MetricSeries(name, labels, [PointOf(row, column)])]
  }

  /** The series `getMetricSeries` builds, in the order their first row
      arrives. */
  function Group(rows: seq<Metric>, name: string, column: TimeColumn): seq<MetricSeries>
  {
    if rows == [] then [] else AddRow(Group(rows[..|rows| - 1], name, column), rows[|rows| - 1], name, column)
  }

  /** The points of one service's rows, in row order. */
  function PointsOf(rows: seq<Metric>, service: string, column: TimeColumn): seq<MetricPoint>
  {
    if rows == [] then []
    else
      var last := rows[|rows| - 1];
      PointsOf(rows[..|rows| - 1], service, column) + if last.serviceName == service then [PointOf(last, column)] else []
  }

  /** One series of the grouping: named after the metric, labelled only
      with its service, holding that service's points. */
  predicate GroupedAt(s: MetricSeries, rows: seq<Metric>, name: string, column: TimeColumn) {
    s.metricName == name
    && ServiceLabel in s.labels
    && s.labels == ServiceLabels(s.labels[ServiceLabel])
    && s.points == PointsOf(rows, s.labels[ServiceLabel], column)
  }

  predicate WellGrouped(series: seq<MetricSeries>, rows: seq<Metric>, name: string, column: TimeColumn) {
    (forall i :: 0 <= i < |series| ==> GroupedAt(series[i], rows, name, column))
    && (forall i, j :: 0 <= i < j < |series| ==> series[i].labels != series[j].labels)
  }

  /** Every service among the rows has a series. */
  predicate Covers(series: seq<MetricSeries>, rows: seq<Metric>) {
    forall r :: r in rows ==> IndexOfLabels(series, ServiceLabels(r.serviceName)) < |series|
  }

  /** Grouping partitions the rows: one series per service, named after the
      query's metric, labelled only with `service`, holding exactly that
      service's points in row order. */
  lemma {:induction false} GroupPartitions(rows: seq<Metric>, name: string, column: TimeColumn)
    ensures WellGrouped(Group(rows, name, column), rows, name, column)
    ensures Covers(Group(rows, name, column), rows)
  {
    if rows != [] {
      GroupPartitions(rows[..|rows| - 1], name, column);
      AddRowKeeps(Group(rows[..|rows| - 1], name, column), rows, name, column);
    }
  }

  /** One step of the grouping loop keeps the grouping exact. */
  lemma {:induction false} AddRowKeeps(series: seq<MetricSeries>, rows: seq<Metric>, name: string, column: TimeColumn)
    requires rows != []
    requires WellGrouped(series, rows[..|rows| - 1], name, column) && Covers(series, rows[..|rows| - 1])
    ensures WellGrouped(AddRow(series, rows[|rows| - 1], name, column), rows, name, column)
    ensures Covers(AddRow(series, rows[|rows| - 1], name, column), rows)
  {
    var init := rows[..|rows| - 1];
    var last := rows[|rows| - 1];
    assert rows == init + [last];
    var labels := ServiceLabels(last.serviceName);
    var i := IndexOfLabels(series, labels);
    if i < |series| {
      AddToSeries(series, init, last, name, column, i);
    } else {
      NoRowsNoPoints(init, last.serviceName, column, series);
      AddSeries(series, init, last, name, column);
    }
  }

  /** A row whose service already has a series extends that series only. */
  lemma {:induction false} AddToSeries(series: seq<MetricSeries>, init: seq<Metric>, last: Metric, name: string, column: TimeColumn, i: nat)
    requires WellGrouped(series, init, name, column) && Covers(series, init)
    requires i == IndexOfLabels(series, ServiceLabels(last.serviceName)) && i < |series|
    ensures WellGrouped(AddRow(series, last, name, column), init + [last], name, column)
    ensures Covers(AddRow(series, last, name, column), init + [last])
  {
    var rows := init + [last];
    var r := AddRow(series, last, name, column);
    forall j | 0 <= j < |r|
      ensures r[j].labels == series[j].labels
      ensures GroupedAt(r[j], rows, name, column)
    {
      AddToSeriesAt(series, init, last, name, column, i, j);
    }
    forall a, b | 0 <= a < b < |r|
      ensures r[a].labels != r[b].labels
    {
      assert series[a].labels != series[b].labels;
    }
    AddToSeriesCovers(series, init, last, name, column, i);
  }

  lemma {:induction false} AddToSeriesCovers(series: seq<MetricSeries>, init: seq<Metric>, last: Metric, name: string, column: TimeColumn, i: nat)
    requires Covers(series, init)
    requires i == IndexOfLabels(series, ServiceLabels(last.serviceName)) && i < |series|
    ensures Covers(AddRow(series, last, name, column), init + [last])
  {
    var r := AddRow(series, last, name, column);
    forall x | x in init + [last]
      ensures IndexOfLabels(r, ServiceLabels(x.serviceName)) < |r|
    {
      var k := if x == last then i else IndexOfLabels(series, ServiceLabels(x.serviceName));
      assert r[k].labels == ServiceLabels(x.serviceName);
    }
  }

  /** The series at `j` after the row is added: the same labels, and the
      points of its service among the longer row list. */
  lemma {:induction false} AddToSeriesAt(series: seq<MetricSeries>, init: seq<Metric>, last: Metric, name: string, column: TimeColumn, i: nat, j: nat)
    requires WellGrouped(series, init, name, column)
    requires i == IndexOfLabels(series, ServiceLabels(last.serviceName)) && i < |series|
    requires j < |series|
    ensures AddRow(series, last, name, column)[j].labels == series[j].labels
    ensures AddRow(series, last, name, column)[j].points == PointsOf(init + [last], series[j].labels[ServiceLabel], column)
  {
    var rows := init + [last];
    assert rows[..|rows| - 1] == init;
    if j != i {
      assert series[j].labels != ServiceLabels(last.serviceName);
    }
  }

  /** A row of a new service opens a series at the end. */
  lemma {:induction false} AddSeries(series: seq<MetricSeries>, init: seq<Metric>, last: Metric, name: string, column: TimeColumn)
    requires WellGrouped(series, init, name, column) && Covers(series, init)
    requires IndexOfLabels(series, ServiceLabels(last.serviceName)) == |series|
    requires PointsOf(init, last.serviceName, column) == []
    ensures WellGrouped(AddRow(series, last, name, column), init + [last], name, column)
    ensures Covers(AddRow(series, last, name, column), init + [last])
  {
    var rows := init + [last];
    var added := MetricSeries(name, ServiceLabels(last.serviceName), [PointOf(last, column)]);
    var r := AddRow(series, last, name, column);
    assert r == series + [added];
    assert rows[..|rows| - 1] == init;
    assert GroupedAt(added, rows, name, column) by {
      assert added.labels[ServiceLabel] == last.serviceName;
    }
    forall j | 0 <= j < |r|
      ensures GroupedAt(r[j], rows, name, column)
    {
      if j < |series| {
        AddSeriesAt(series, init, last, name, column, j);
        assert r[j] == series[j];
      }
    }
    forall i, j | 0 <= i < j < |r|
      ensures r[i].labels != r[j].labels
    {
      if j == |series| {
        assert r[i] == series[i];
      } else {
        assert r[i] == series[i] && r[j] == series[j];
      }
    }
    AddSeriesCovers(series, init, last, name, column);
  }

  lemma {:induction false} AddSeriesCovers(series: seq<MetricSeries>, init: seq<Metric>, last: Metric, name: string, column: TimeColumn)
    requires Covers(series, init)
    requires IndexOfLabels(series, ServiceLabels(last.serviceName)) == |series|
    ensures Covers(AddRow(series, last, name, column), init + [last])
  {
    var r := AddRow(series, last, name, column);
    forall x | x in init + [last]
      ensures IndexOfLabels(r, ServiceLabels(x.serviceName)) < |r|
    {
      var k := if x == last then |series| else IndexOfLabels(series, ServiceLabels(x.serviceName));
      assert r[k].labels == ServiceLabels(x.serviceName);
    }
  }

  /** An existing series keeps its points when a row of another service
      arrives. */
  lemma {:induction false} AddSeriesAt(series: seq<MetricSeries>, init: seq<Metric>, last: Metric, name: string, column: TimeColumn, j: nat)
    requires WellGrouped(series, init, name, column)
    requires IndexOfLabels(series, ServiceLabels(last.serviceName)) == |series|
    requires j < |series|
    ensures series[j].points == PointsOf(init + [last], series[j].labels[ServiceLabel], column)
  {
    var rows := init + [last];
    assert rows[..|rows| - 1] == init;
    assert series[j].labels != ServiceLabels(last.serviceName);
  }

  /** A service with no series has no rows so far. */
  lemma {:induction false} NoRowsNoPoints(rows: seq<Metric>, service: string, column: TimeColumn, series: seq<MetricSeries>)
    requires Covers(series, rows)
    requires IndexOfLabels(series, ServiceLabels(service)) == |series|
    ensures PointsOf(rows, service, column) == []
  {
    if rows != [] {
      var init := rows[..|rows| - 1];
      assert rows[|rows| - 1] in rows;
      assert Covers(series, init) by {
        forall x | x in init ensures x in rows { }
      }
      NoRowsNoPoints(init, service, column, series);
    }
  }

  /** Every row contributes its point to its own service's points. */
  lemma {:induction false} PointsOfMember(rows: seq<Metric>, row: Metric, column: TimeColumn)
    requires row in rows
    ensures PointOf(row, column) in PointsOf(rows, row.serviceName, column)
  {
    var init := rows[..|rows| - 1];
    if row != rows[|rows| - 1] {
      assert rows == init + [rows[|rows| - 1]];
      PointsOfMember(init, row, column);
    }
  }

  predicate AscendingPoints(ps: seq<MetricPoint>) {
    forall i, j :: 0 <= i < j < |ps| ==> ps[i].timestamp <= ps[j].timestamp
  }

  /** Rows in ascending time give each service its points in ascending time. */
  lemma {:induction false} PointsOfAscending(rows: seq<Metric>, service: string, column: TimeColumn)
    requires SortedBy(rows, MetricTime)
    ensures AscendingPoints(PointsOf(rows, service, column))
  {
    if rows != [] {
      var init := rows[..|rows| - 1];
      var last := rows[|rows| - 1];
      assert SortedBy(init, MetricTime);
      PointsOfAscending(init, service, column);
      PointsOfBelow(init, service, column, last.timestamp);
    }
  }

  /** Rows no later than `t` give points no later than `t` as read. */
  lemma {:induction false} PointsOfBelow(rows: seq<Metric>, service: string, column: TimeColumn, t: int)
    requires forall k :: 0 <= k < |rows| ==> rows[k].timestamp <= t
    ensures forall p :: p in PointsOf(rows, service, column) ==> p.timestamp <= t * NanosPerUnit(column)
  {
    if rows != [] {
      var last := rows[|rows| - 1];
      PointsOfBelow(rows[..|rows| - 1], service, column, t);
      MulMonotone(last.timestamp, t, NanosPerUnit(column));
    }
  }

  lemma MulMonotone(a: int, b: int, n: int)
    requires a <= b && n > 0
    ensures a * n <= b * n
  {
    assert b * n - a * n == (b - a) * n;
  }

  /** Grouped rows that arrive in ascending time give series whose points
      are in ascending time. */
  lemma {:induction false} GroupAscending(rows: seq<Metric>, name: string, column: TimeColumn, i: nat)
    requires SortedBy(rows, MetricTime)
    requires i < |Group(rows, name, column)|
    ensures AscendingPoints(Group(rows, name, column)[i].points)
  {
    GroupPartitions(rows, name, column);
    var g := Group(rows, name, column);
    PointsOfAscending(rows, g[i].labels[ServiceLabel], column);
  }
}
