/** The web UI's JSON endpoints over the store, and its two formatting
    helpers. */
module Web {
  import opened Wrappers
  import opened GoInts
  import opened GoStrings
  import opened Order
  import opened Storage

  // ---------------------------------------------------------------------
  // Listing endpoints

  /** `strconv.Atoi(c.DefaultQuery(key, fallback))` with the error dropped:
      an absent parameter reads the fallback, text that is not a number
      reads 0 unless its leading digits overflow (see `AtoiLenient`). */
  function QueryInt(param: Option<string>, fallback: string): (r: int)
    ensures InInt64(r)
    ensures var text := if param.Some? then param.value else fallback;
      (Atoi(text).Some? ==> r == Atoi(text).value)
      && (Atoi(text).None? ==> r == 0 || r == MinInt64 || r == MaxInt64)
  {
    AtoiLenient(if param.Some? then param.value else fallback)
  }

  /** The body of a listing response. */
  datatype Listing<T> = Listing(data: seq<T>, total: int, limit: int, offset: int)

  /** The page a listing serves, and its `total`, `limit` and `offset`. */
  function ListingOf<T>(rows: seq<T>, recency: T -> int, limitParam: Option<string>, offsetParam: Option<string>): (r: Listing<T>)
    ensures r.limit == QueryInt(limitParam, "100") && r.offset == QueryInt(offsetParam, "0")
    ensures r.total == |r.data|
    ensures r.limit >= 0 ==> r.total <= r.limit
    ensures SortedBy(r.data, recency)
    ensures multiset(r.data) <= multiset(rows)
  {
    var limit := QueryInt(limitParam, "100");
    var offset := QueryInt(offsetParam, "0");
    var page := Page(SortBy(rows, recency), limit, offset);
    PageSorted(SortBy(rows, recency), limit, offset, recency);
    Listing(page, |page|, limit, offset)
  }

  /** Without parameters a listing is the newest 100 rows, and `total`
      counts the rows served, not the rows stored. */
  lemma {:induction false} ListingDefaults<T>(rows: seq<T>, recency: T -> int)
    ensures var l := ListingOf(rows, recency, None, None);
      l.limit == 100 && l.offset == 0
      && l.total == |l.data|
      && l.total == (if |rows| < 100 then |rows| else 100)
      && l.data == SortBy(rows, recency)[..l.total]
  {
    DefaultParameters();
    PageWindow(SortBy(rows, recency), 100, 0);
  }

  /** The fallbacks "100" and "0" read as 100 and 0. */
  lemma DefaultParameters()
    ensures QueryInt(None, "100") == 100 && QueryInt(None, "0") == 0
  {
    assert "100"[..2] == "10" && "10"[..1] == "1" && "1"[..0] == "";
    assert DigitsValue("1") == 1;
    assert DigitsValue("10") == 10;
    assert DigitsValue("100") == 100;
  }

  /** A malformed `limit` reads as 0, which serves no rows. */
  lemma MalformedLimitServesNothing<T>(rows: seq<T>, recency: T -> int, offsetParam: Option<string>)
    ensures ListingOf(rows, recency, Some("ten"), offsetParam).total == 0
  {
  }

  // ---------------------------------------------------------------------
  // Query

  /** The decoded body of a `POST /api/v1/query`. */
  datatype WebQuery = WebQuery(queryType: string, query: string, limit: int, offset: int, timeRange: string, step: string)

  /** Stands for the validator's message about a `required` field. */
  const RequiredFieldMissing: string := "field validation failed on the 'required' tag"

  /** `type` and `query` carry `binding:"required"`, which rejects the
      empty string. */
  predicate HasRequiredFields(q: WebQuery) {
    q.queryType != "" && q.query != ""
  }

  /** `ShouldBindJSON` after decoding: a body that decodes is bound only
      when its required fields are set. JSON decoding itself is not part of
      this model; its outcome is the input. */
  function Bind(decoded: Result<WebQuery, string>): (r: Result<WebQuery, string>)
    ensures r.Success? <==> decoded.Success? && HasRequiredFields(decoded.value)
    ensures r.Success? ==> r == decoded
    ensures decoded.Failure? ==> r == decoded
    ensures decoded.Success? && !HasRequiredFields(decoded.value) ==> r == Failure(RequiredFieldMissing)
  {
    if decoded.Failure? then decoded
    else if !HasRequiredFields(decoded.value) then Failure(RequiredFieldMissing)
    else decoded
  }

  datatype QueryOutcome =
    | BadRequest(error: string)
      /** Passed to the PromQL, LogQL or TraceQL handler. */
    | Delegated(language: string, request: WebQuery)
    | MetricRows(metrics: seq<Metric>)
    | TraceRows(traces: seq<Trace>)
    | LogRows(logs: seq<Log>)

  const DelegatedTypes: set<string> := {"promql", "logql", "traceql"}
  const TableTypes: set<string> := {"metrics", "traces", "logs"}

  /** The request after a zero limit is replaced by 100. */
  function WithLimit(q: WebQuery): WebQuery {
    if q.limit == 0 then q.(limit := 100) else q
  }

  function QueryOutcomeOf(metrics: seq<Metric>, traces: seq<Trace>, logs: seq<Log>, decoded: Result<WebQuery, string>): (out: QueryOutcome)
    ensures out.BadRequest? <==> decoded.Failure? || !HasRequiredFields(decoded.value)
                                 || decoded.value.queryType !in DelegatedTypes + TableTypes
    ensures decoded.Failure? ==> out == BadRequest(decoded.error)
    ensures decoded.Success? && !HasRequiredFields(decoded.value) ==> out == BadRequest(RequiredFieldMissing)
    ensures decoded.Success? && HasRequiredFields(decoded.value) && out.BadRequest? ==> out.error == "Invalid query type"
    ensures out.Delegated? ==> (out.language == decoded.value.queryType
              && out.request.limit == (if decoded.value.limit == 0 then 100 else decoded.value.limit)
              && out.request == decoded.value.(limit := out.request.limit))
    ensures out.MetricRows? ==> (decoded.value.queryType == "metrics"
              && out.metrics == Page(SortBy(metrics, MetricRecency), if decoded.value.limit == 0 then 100 else decoded.value.limit, decoded.value.offset))
  {
    var bound := Bind(decoded);
    if bound.Failure? then BadRequest(bound.error)
    else
      var q := WithLimit(bound.value);
      if q.queryType in DelegatedTypes then Delegated(q.queryType, q)
      else if q.queryType == "metrics" then MetricRows(Page(SortBy(metrics, MetricRecency), q.limit, q.offset))
      else if q.queryType == "traces" then TraceRows(Page(SortBy(traces, TraceRecency), q.limit, q.offset))
      else if q.queryType == "logs" then LogRows(Page(SortBy(logs, LogRecency), q.limit, q.offset))
      else BadRequest("Invalid query type")
  }

  /** A query for a table serves at most its limit, 100 when unset. */
  lemma QueryRowsBounded(metrics: seq<Metric>, traces: seq<Trace>, logs: seq<Log>, q: WebQuery)
    requires q.limit >= 0
    ensures var out := QueryOutcomeOf(metrics, traces, logs, Success(q));
      var cap := if q.limit == 0 then 100 else q.limit;
      (out.MetricRows? ==> |out.metrics| <= cap)
      && (out.TraceRows? ==> |out.traces| <= cap)
      && (out.LogRows? ==> |out.logs| <= cap)
  {
  }

  // ---------------------------------------------------------------------
  // formatDuration

  /** The numbers `formatDuration` prints: `"%.0fs"`, `"%dm %ds"` or
      `"%dh %dm"`. */
  datatype DurationText =
    | InSeconds(exactSeconds: real)
    | MinutesSeconds(minutes: int, seconds: int)
    | HoursMinutes(hours: int, minutes: int)

  /** `formatDuration`: the branch by size, and the whole units below it
      reduced mod 60. */
  function FormatDuration(d: int): (r: DurationText)
    ensures r.InSeconds? <==> d < Minute
    ensures r.MinutesSeconds? <==> Minute <= d < Hour
    ensures r.InSeconds? ==> r.exactSeconds * NanosPerSecond as real == d as real
    ensures r.MinutesSeconds? ==> (1 <= r.minutes < 60 && 0 <= r.seconds < 60
      && r.minutes * 60 + r.seconds == d / Second)
    ensures r.HoursMinutes? ==> (1 <= r.hours && 0 <= r.minutes < 60
      && r.hours * 60 + r.minutes == d / Minute)
  {
    if d < Minute then InSeconds(d as real / NanosPerSecond as real)
    else if d < Hour then
      var whole := d / Second;
      MinutesSeconds(d / Minute, whole % 60)
    else
      var whole := d / Minute;
      HoursMinutes(d / Hour, whole % 60)
  }

  // ---------------------------------------------------------------------
  // formatBytes

  const Unit: nat := 1024
  const UnitLetters: string := "KMGTPE"

  function Power(k: nat): nat {
    if k == 0 then 1 else Unit * Power(k - 1)
  }

  /** How often `n` can be divided by 1024 while it stays at least 1024. */
  function Steps(n: nat): nat
  {
    if n < Unit then 0 else 1 + Steps(n / Unit)
  }

  /** What `formatBytes` prints: `"%d B"`, or the size in the largest unit
      it reaches, written `"%.1f %cB"`. */
  datatype ByteSize = Plain(bytes: nat) | Scaled(quotient: real, unit: char)

  /** The size `formatBytes` prints for `bytes`. */
  function ByteSizeOf(bytes: Uint64): (r: ByteSize)
    ensures r.Plain? <==> bytes < Unit
    ensures r.Plain? ==> r.bytes == bytes
    ensures r.Scaled? ==> 1.0 <= r.quotient < Unit as real && r.unit in UnitLetters
  {
    if bytes < Unit then Plain(bytes)
    else
      var exp := Steps(bytes / Unit);
      ByteSizeBounds(bytes);
      QuotientBounds(bytes as real, Power(exp + 1) as real);
      Scaled(bytes as real / Power(exp + 1) as real, UnitLetters[exp])
  }

  /** A quotient of a size by the largest power of 1024 below it. */
  lemma QuotientBounds(x: real, d: real)
    requires 0.0 < d <= x < Unit as real * d
    ensures 1.0 <= x / d < Unit as real
  {
    assert x / d * d == x;
  }

  lemma {:induction false} PowerGrows(j: nat, k: nat)
    requires j <= k
    ensures Power(j) <= Power(k)
    decreases k
  {
    if j < k {
      PowerGrows(j, k - 1);
    }
  }

  /** One more division by 1024 scales the bounds up by one power. */
  lemma ScaleUp(n: nat, k: nat)
    requires Power(k) <= n / Unit < Power(k + 1)
    ensures Power(k + 1) <= n < Power(k + 2)
  {
    var q := n / Unit;
    assert Unit * q <= n < Unit * (q + 1);
    assert Unit * Power(k) <= Unit * q;
    assert Unit * (q + 1) <= Unit * Power(k + 1);
  }

  /** `Steps` counts the powers of 1024 below `n`. */
  lemma {:induction false} StepsBounds(n: nat)
    requires n >= 1
    ensures Power(Steps(n)) <= n < Power(Steps(n) + 1)
    decreases n
  {
    if n >= Unit {
      StepsBounds(n / Unit);
      ScaleUp(n, Steps(n / Unit));
    }
  }

  /** The unit `formatBytes` picks: 1024^(exp+1) <= bytes < 1024^(exp+2),
      and for a `uint64` exp is at most 5, so `"KMGTPE"[exp]` is in range
      and the `int64` divisor does not overflow. */
  lemma ByteSizeBounds(bytes: Uint64)
    requires bytes >= Unit
    ensures var exp := Steps(bytes / Unit);
      Power(exp + 1) <= bytes < Power(exp + 2)
      && exp < |UnitLetters|
      && Power(exp + 1) <= MaxInt64
  {
    var exp := Steps(bytes / Unit);
    StepsBounds(bytes / Unit);
    ScaleUp(bytes, exp);
    assert Power(7) == 1_180_591_620_717_411_303_424;
    if exp >= 6 {
      PowerGrows(7, exp + 1);
      assert false;
    }
    PowerGrows(exp + 1, 6);
    assert Power(6) == 1_152_921_504_606_846_976;
  }

  /** The exponent is the only one with those bounds. */
  lemma ByteSizeUnique(bytes: Uint64, e: nat)
    requires bytes >= Unit && Power(e + 1) <= bytes < Power(e + 2)
    ensures e == Steps(bytes / Unit)
  {
    var exp := Steps(bytes / Unit);
    ByteSizeBounds(bytes);
    if e < exp {
      PowerGrows(e + 2, exp + 1);
      assert false;
    } else if e > exp {
      PowerGrows(exp + 2, e + 1);
      assert false;
    }
  }

  /** `formatBytes`: the loop divides by 1024 until the quotient is below
      1024, multiplying the divisor and counting the unit as it goes. */
  method FormatBytes(bytes: Uint64) returns (r: ByteSize)
    ensures r == ByteSizeOf(bytes)
  {
    if bytes < Unit {
      return Plain(bytes);
    }
    ByteSizeBounds(bytes);
    var div: nat, exp: nat := Unit, 0;
    var n: nat := bytes / Unit;
    while n >= Unit
      invariant div == Power(exp + 1)
      invariant exp + Steps(n) == Steps(bytes / Unit)
      decreases n
    {
      div := div * Unit;
      exp := exp + 1;
      n := n / Unit;
    }
    return Scaled(bytes as real / div as real, UnitLetters[exp]);
  }

  // ---------------------------------------------------------------------
  // The service

  class Service {
    const store: Store

    constructor(store: Store)
      ensures this.store == store
    {
      this.store := store;
    }

    /** `GetMetrics`: the page the query parameters select, and its size. */
    method GetMetrics(limitParam: Option<string>, offsetParam: Option<string>) returns (resp: Listing<Metric>)
      ensures resp == ListingOf(store.metrics, MetricRecency, limitParam, offsetParam)
    {
      var limit := QueryInt(limitParam, "100");
      var offset := QueryInt(offsetParam, "0");
      var metrics := store.GetMetrics(limit, offset);
      resp := Listing(metrics, |metrics|, limit, offset);
    }

    method GetTraces(limitParam: Option<string>, offsetParam: Option<string>) returns (resp: Listing<Trace>)
      ensures resp == ListingOf(store.traces, TraceRecency, limitParam, offsetParam)
    {
      var limit := QueryInt(limitParam, "100");
      var offset := QueryInt(offsetParam, "0");
      var traces := store.GetTraces(limit, offset);
      resp := Listing(traces, |traces|, limit, offset);
    }

    method GetLogs(limitParam: Option<string>, offsetParam: Option<string>) returns (resp: Listing<Log>)
      ensures resp == ListingOf(store.logs, LogRecency, limitParam, offsetParam)
    {
      var limit := QueryInt(limitParam, "100");
      var offset := QueryInt(offsetParam, "0");
      var logs := store.GetLogs(limit, offset);
      resp := Listing(logs, |logs|, limit, offset);
    }

    /** `Query`: bind the body, default the limit, then dispatch on the
        query type. */
    method Query(decoded: Result<WebQuery, string>) returns (out: QueryOutcome)
      ensures out == QueryOutcomeOf(store.metrics, store.traces, store.logs, decoded)
    {
      var bound := Bind(decoded);
      if bound.Failure? {
        return BadRequest(bound.error);
      }
      var req := bound.value;
      if req.limit == 0 {
        req := req.(limit := 100);
      }
      if req.queryType in DelegatedTypes {
        out := Delegated(req.queryType, req);
      } else if req.queryType == "metrics" {
        var metrics := store.GetMetrics(req.limit, req.offset);
        out := MetricRows(metrics);
      } else if req.queryType == "traces" {
        var traces := store.GetTraces(req.limit, req.offset);
        out := TraceRows(traces);
      } else if req.queryType == "logs" {
        var logs := store.GetLogs(req.limit, req.offset);
        out := LogRows(logs);
      } else {
        out := BadRequest("Invalid query type");
      }
    }
  }
}
