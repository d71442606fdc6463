/** The SQLite storage of the backend as three in-memory tables. A row keeps
    the fields the SQL columns hold; its time is the stored `UnixNano`, which
    reading the row back turns into the same instant. Database failures are
    a fixed fault model: a row in a rejected set makes its `INSERT` fail,
    and a table in `deletes` makes its retention `DELETE` fail. */
module Storage {
  import opened Wrappers
  import opened GoInts
  import opened GoStrings
  import opened Otlp
  import opened Order

  datatype Metric = Metric(
    timestamp: int,
    metricName: string,
    value: real,
    labels: map<string, AttrValue>,
    serviceName: string)

  datatype Trace = Trace(
    traceId: string,
    spanId: string,
    parentSpanId: Option<string>,
    serviceName: string,
    operationName: string,
    startTime: int,
    durationNanos: int,
    attributes: map<string, AttrValue>,
    statusCode: string)

  datatype Log = Log(
    timestamp: int,
    serviceName: string,
    level: string,
    message: string,
    attributes: map<string, AttrValue>,
    traceId: Option<string>,
    spanId: Option<string>)

  datatype Table = Metrics | Traces | Logs

  datatype Faults = Faults(
    metrics: set<Metric>,
    traces: set<Trace>,
    logs: set<Log>,
    deletes: set<Table>)

  /** The row an insert writes: the time column holds `UnixNano()`. */
  function StoredMetric(m: Metric): Metric { m.(timestamp := UnixNano(m.timestamp)) }
  function StoredTrace(t: Trace): Trace { t.(startTime := UnixNano(t.startTime)) }
  function StoredLog(l: Log): Log { l.(timestamp := UnixNano(l.timestamp)) }

  /** Sort keys of `ORDER BY timestamp DESC` and `ORDER BY start_time DESC`. */
  function MetricRecency(m: Metric): int { -m.timestamp }
  function TraceRecency(t: Trace): int { -t.startTime }
  function LogRecency(l: Log): int { -l.timestamp }

  /** `LIMIT limit OFFSET offset` as SQLite applies it: a negative offset
      skips nothing and a negative limit sets no bound. */
  function Page<T>(rows: seq<T>, limit: int, offset: int): (r: seq<T>)
    ensures limit >= 0 ==> |r| <= limit
  {
    var rest := rows[Skipped(|rows|, offset)..];
    if limit < 0 || limit >= |rest| then rest else rest[..limit]
  }

  /** How many rows `OFFSET offset` skips in a table of `n` rows. */
  function Skipped(n: nat, offset: int): (skip: nat)
    ensures skip <= n
  {
    if offset < 0 then 0 else if offset > n then n else offset
  }

  /** A page is one slice of the rows. */
  lemma PageSlice<T>(rows: seq<T>, limit: int, offset: int)
    ensures Skipped(|rows|, offset) + |Page(rows, limit, offset)| <= |rows|
    ensures Page(rows, limit, offset) == rows[Skipped(|rows|, offset)..Skipped(|rows|, offset) + |Page(rows, limit, offset)|]
  {
  }

  /** The page is the run of rows that starts after the skipped ones, as
      long as the limit allows and the rows last. */
  lemma PageWindow<T>(rows: seq<T>, limit: int, offset: nat)
    ensures var r := Page(rows, limit, offset);
      (offset >= |rows| ==> r == [])
      && (offset < |rows| ==> r == rows[offset..offset + |r|])
      && (limit >= 0 && offset + limit <= |rows| ==> |r| == limit)
      && (limit < 0 ==> |r| == if offset < |rows| then |rows| - offset else 0)
  {
  }

  /** A page of a sorted listing is sorted, and its rows come from the table. */
  lemma PageSorted<T>(rows: seq<T>, limit: int, offset: int, key: T -> int)
    requires SortedBy(rows, key)
    ensures SortedBy(Page(rows, limit, offset), key)
    ensures multiset(Page(rows, limit, offset)) <= multiset(rows)
  {
    var skip := Skipped(|rows|, offset);
    PageSlice(rows, limit, offset);
    SliceSorted(rows, skip, skip + |Page(rows, limit, offset)|, key);
  }

  lemma SliceSorted<T>(rows: seq<T>, lo: nat, hi: nat, key: T -> int)
    requires lo <= hi <= |rows| && SortedBy(rows, key)
    ensures SortedBy(rows[lo..hi], key)
    ensures multiset(rows[lo..hi]) <= multiset(rows)
  {
    assert rows == rows[..lo] + rows[lo..hi] + rows[hi..];
  }

  /** `GetMetrics` lists newest first, and only rows of the table. */
  lemma MetricsNewestFirst(rows: seq<Metric>, limit: int, offset: int)
    ensures var r := Page(SortBy(rows, MetricRecency), limit, offset);
      (forall i, j :: 0 <= i < j < |r| ==> r[i].timestamp >= r[j].timestamp)
      && multiset(r) <= multiset(rows)
  {
    PageSorted(SortBy(rows, MetricRecency), limit, offset, MetricRecency);
  }

  /** The rows whose time is at or after `cutoff`, in table order: what
      `DELETE … WHERE time < cutoff` leaves. */
  function Since<T(!new)>(rows: seq<T>, time: T -> int, cutoff: int): (r: seq<T>)
    ensures |r| <= |rows|
    ensures forall x :: x in r <==> x in rows && time(x) >= cutoff
  {
    if rows == [] then []
    else
      var rest := Since(rows[1..], time, cutoff);
      assert forall x :: x in rows <==> x == rows[0] || x in rows[1..] by {
        assert rows == [rows[0]] + rows[1..];
      }
      if time(rows[0]) >= cutoff then [rows[0]] + rest else rest
  }

  /** Purging twice with the same cutoff removes nothing the second time. */
  lemma {:induction false} SinceIdempotent<T(!new)>(rows: seq<T>, time: T -> int, cutoff: int)
    ensures Since(Since(rows, time, cutoff), time, cutoff) == Since(rows, time, cutoff)
  {
    if rows != [] {
      SinceIdempotent(rows[1..], time, cutoff);
      var rest := Since(rows[1..], time, cutoff);
      if time(rows[0]) >= cutoff {
        assert ([rows[0]] + rest)[1..] == rest;
      }
    }
  }

  /** Purging keeps the surviving rows in their table order. */
  lemma {:induction false} SinceKeepsAll<T(!new)>(rows: seq<T>, time: T -> int, cutoff: int)
    requires forall i :: 0 <= i < |rows| ==> time(rows[i]) >= cutoff
    ensures Since(rows, time, cutoff) == rows
  {
    if rows != [] {
      SinceKeepsAll(rows[1..], time, cutoff);
      assert [rows[0]] + rows[1..] == rows;
    }
  }

  function MetricTime(m: Metric): int { m.timestamp }
  function TraceTime(t: Trace): int { t.startTime }
  function LogTime(l: Log): int { l.timestamp }

  /** The cutoff of `CleanupOldData`: `now.AddDate(0, 0, -days).UnixNano()`,
      with every day 24 hours long. */
  function Cutoff(now: int, retentionDays: int): (r: int)
    ensures InInt64(r)
    ensures InInt64(now - retentionDays * Day) ==> r == now - retentionDays * Day
  {
    UnixNano(now - retentionDays * Day)
  }

  /** `createDataDir`'s backward scan: the text before the last `/`, or
      nothing to create when there is no `/` or the only one leads. */
  method DataDir(path: string) returns (dir: Option<string>)
    ensures var i := LastIndex(path, '/');
      dir == if i <= 0 then None else Some(path[..i])
  {
    var d := "";
    var i := |path| - 1;
    while i >= 0
      invariant -1 <= i < |path|
      invariant '/' !in path[i + 1..]
      invariant d == ""
    {
      if path[i] == '/' {
        d := path[..i];
        break;
      }
      i := i - 1;
    }
    assert i >= 0 ==> path[i] == '/';
    assert i == LastIndex(path, '/');
    if d == "" {
      return None;
    }
    return Some(d);
  }

  class Store {
    var metrics: seq<Metric>
    var traces: seq<Trace>
    var logs: seq<Log>
    const retentionDays: int
    const faults: Faults

    /** A store over empty tables, as after `createTables`. */
    constructor (retentionDays: int, faults: Faults)
      ensures metrics == [] && traces == [] && logs == []
      ensures this.retentionDays == retentionDays && this.faults == faults
    {
      metrics, traces, logs := [], [], [];
      this.retentionDays, this.faults := retentionDays, faults;
    }

    method InsertMetric(m: Metric) returns (ok: bool)
      modifies this
      ensures ok <==> StoredMetric(m) !in faults.metrics
      ensures metrics == if ok then old(metrics) + [StoredMetric(m)] else old(metrics)
      ensures traces == old(traces) && logs == old(logs)
    {
      ok := StoredMetric(m) !in faults.metrics;
      if ok {
        metrics := metrics + [StoredMetric(m)];
      }
    }

    method InsertTrace(t: Trace) returns (ok: bool)
      modifies this
      ensures ok <==> StoredTrace(t) !in faults.traces
      ensures traces == if ok then old(traces) + [StoredTrace(t)] else old(traces)
      ensures metrics == old(metrics) && logs == old(logs)
    {
      ok := StoredTrace(t) !in faults.traces;
      if ok {
        traces := traces + [StoredTrace(t)];
      }
    }

    method InsertLog(l: Log) returns (ok: bool)
      modifies this
      ensures ok <==> StoredLog(l) !in faults.logs
      ensures logs == if ok then old(logs) + [StoredLog(l)] else old(logs)
      ensures metrics == old(metrics) && traces == old(traces)
    {
      ok := StoredLog(l) !in faults.logs;
      if ok {
        logs := logs + [StoredLog(l)];
      }
    }

    /** `GetMetrics`: newest first, then `LIMIT`/`OFFSET`; the scan loop
        copies the selected rows in order. */
    method GetMetrics(limit: int, offset: int) returns (r: seq<Metric>)
      ensures r == Page(SortBy(metrics, MetricRecency), limit, offset)
    {
      var selected := Page(SortBy(metrics, MetricRecency), limit, offset);
      r := [];
      for i := 0 to |selected|
        invariant r == selected[..i]
      {
        r := r + [selected[i]];
      }
    }

    method GetTraces(limit: int, offset: int) returns (r: seq<Trace>)
      ensures r == Page(SortBy(traces, TraceRecency), limit, offset)
    {
      var selected := Page(SortBy(traces, TraceRecency), limit, offset);
      r := [];
      for i := 0 to |selected|
        invariant r == selected[..i]
      {
        r := r + [selected[i]];
      }
    }

    method GetLogs(limit: int, offset: int) returns (r: seq<Log>)
      ensures r == Page(SortBy(logs, LogRecency), limit, offset)
    {
      var selected := Page(SortBy(logs, LogRecency), limit, offset);
      r := [];
      for i := 0 to |selected|
        invariant r == selected[..i]
      {
        r := r + [selected[i]];
      }
    }

    /** Service names that occur, non-empty, in some table. */
    ghost predicate HasService(name: string)
      reads this
    {
      name != "" &&
      ((exists m :: m in metrics && m.serviceName == name)
       || (exists t :: t in traces && t.serviceName == name)
       || (exists l :: l in logs && l.serviceName == name))
    }

    /** `GetServices`: `SELECT DISTINCT … UNION … ORDER BY service_name`,
        computed by inserting each table's names into a strictly ascending
        list. */
    method GetServices() returns (services: seq<string>)
      ensures StrictlySorted(services)
      ensures forall name :: name in services <==> HasService(name)
    {
      services := [];
      for i := 0 to |metrics|
        invariant StrictlySorted(services)
        invariant forall name :: name in services <==> name != "" && exists k :: 0 <= k < i && metrics[k].serviceName == name
      {
        if metrics[i].serviceName != "" {
          services := InsertUnique(metrics[i].serviceName, services);
        }
      }
      for i := 0 to |traces|
        invariant StrictlySorted(services)
        invariant forall name :: name in services <==> (name != "" &&
          ((exists m :: m in metrics && m.serviceName == name) || exists k :: 0 <= k < i && traces[k].serviceName == name))
      {
        if traces[i].serviceName != "" {
          services := InsertUnique(traces[i].serviceName, services);
        }
      }
      for i := 0 to |logs|
        invariant StrictlySorted(services)
        invariant forall name :: name in services <==> (name != "" &&
          ((exists m :: m in metrics && m.serviceName == name) || (exists t :: t in traces && t.serviceName == name)
           || exists k :: 0 <= k < i && logs[k].serviceName == name))
      {
        if logs[i].serviceName != "" {
          services := InsertUnique(logs[i].serviceName, services);
        }
      }
    }

    /** `CleanupOldData`: delete the metrics, traces and logs older than the
        cutoff, in that order, stopping at the first failing delete. */
    method CleanupOldData(now: int) returns (ok: bool)
      modifies this
      ensures var cutoff := Cutoff(now, retentionDays);
        ok <==> Metrics !in faults.deletes && Traces !in faults.deletes && Logs !in faults.deletes
      ensures var cutoff := Cutoff(now, retentionDays);
        metrics == if Metrics in faults.deletes then old(metrics) else Since(old(metrics), MetricTime, cutoff)
      ensures var cutoff := Cutoff(now, retentionDays);
        traces == if Metrics in faults.deletes || Traces in faults.deletes then old(traces)
          else Since(old(traces), TraceTime, cutoff)
      ensures var cutoff := Cutoff(now, retentionDays);
        logs == if ok then Since(old(logs), LogTime, cutoff) else old(logs)
    {
      var cutoff := Cutoff(now, retentionDays);
      if Metrics in faults.deletes {
        return false;
      }
      metrics := Since(metrics, MetricTime, cutoff);
      if Traces in faults.deletes {
        return false;
      }
      traces := Since(traces, TraceTime, cutoff);
      if Logs in faults.deletes {
        return false;
      }
      logs := Since(logs, LogTime, cutoff);
      return true;
    }
  }
}
