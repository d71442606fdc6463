/** The table of PromQL functions and the point-wise maps `abs`, `ceil`,
    `floor`, `round` and `timestamp`. */
module PromqlFunctions {
  import opened Wrappers
  import opened GoInts
  import opened Order
  import opened PromqlSeries

  datatype ArgType = InstantVectorArg | RangeVectorArg | ScalarArg | StringArg
  datatype ReturnType = InstantVectorResult | RangeVectorResult | ScalarResult | StringResult

  /** What a registered handler does: every built-in except `time` is left
      to the evaluator and returns `nil, nil`; `time` returns the current
      Unix second. */
  datatype Handler = DeferredToEvaluator | CurrentUnixTime

  datatype Function = Function(
    name: string,
    description: string,
    args: seq<ArgType>,
    returnType: ReturnType,
    handler: Option<Handler>)

  /** The zero `Function` a missing map entry yields. */
  const NoFunction: Function := Function("", "", [], InstantVectorResult, None)

  /** Calling a registered handler; the arguments are ignored by all of them. */
  function Invoke(h: Handler, now: int): (r: Option<real>)
    ensures h.CurrentUnixTime? <==> r.Some?
    ensures r.Some? ==> r.value == UnixSeconds(now) as real
  {
    match h
    case DeferredToEvaluator => None
    case CurrentUnixTime => Some(UnixSeconds(now) as real)
  }

  function Builtin(name: string, description: string, args: seq<ArgType>, returnType: ReturnType): Function
  {
    Function(name, description, args, returnType, Some(if name == "time" then CurrentUnixTime else DeferredToEvaluator))
  }

  const RateFunction: Function := Builtin("rate", "Calculates the per-second average rate of increase", [RangeVectorArg], InstantVectorResult)
  const IncreaseFunction: Function := Builtin("increase", "Calculates the increase in the time series", [RangeVectorArg], InstantVectorResult)
  const SumFunction: Function := Builtin("sum", "Sum over dimensions", [InstantVectorArg], InstantVectorResult)
  const AvgFunction: Function := Builtin("avg", "Average over dimensions", [InstantVectorArg], InstantVectorResult)
  const CountFunction: Function := Builtin("count", "Count of elements", [InstantVectorArg], InstantVectorResult)
  const MinFunction: Function := Builtin("min", "Minimum value", [InstantVectorArg], InstantVectorResult)
  const MaxFunction: Function := Builtin("max", "Maximum value", [InstantVectorArg], InstantVectorResult)
  const AbsFunction: Function := Builtin("abs", "Absolute value", [InstantVectorArg], InstantVectorResult)
  const CeilFunction: Function := Builtin("ceil", "Round up to nearest integer", [InstantVectorArg], InstantVectorResult)
  const FloorFunction: Function := Builtin("floor", "Round down to nearest integer", [InstantVectorArg], InstantVectorResult)
  const RoundFunction: Function := Builtin("round", "Round to nearest integer", [InstantVectorArg], InstantVectorResult)
  const TimeFunction: Function := Builtin("time", "Current Unix timestamp", [], ScalarResult)
  const TimestampFunction: Function := Builtin("timestamp", "Unix timestamp of the sample", [InstantVectorArg], InstantVectorResult)

  /** A table after the thirteen registrations of
      `registerBuiltinFunctions`, in their order. */
  function WithBuiltins(m: map<string, Function>): map<string, Function>
  {
    m[RateFunction.name := RateFunction][IncreaseFunction.name := IncreaseFunction]
      [SumFunction.name := SumFunction][AvgFunction.name := AvgFunction][CountFunction.name := CountFunction]
      [MinFunction.name := MinFunction][MaxFunction.name := MaxFunction]
      [AbsFunction.name := AbsFunction][CeilFunction.name := CeilFunction]
      [FloorFunction.name := FloorFunction][RoundFunction.name := RoundFunction]
      [TimeFunction.name := TimeFunction][TimestampFunction.name := TimestampFunction]
  }

  /** The table a new registry holds. */
  const BuiltinTable: map<string, Function> := WithBuiltins(map[])

  const BuiltinNames: set<string> := {"rate", "increase", "sum", "avg", "count", "min", "max",
    "abs", "ceil", "floor", "round", "time", "timestamp"}

  /** Every entry sits under its own name. */
  predicate KeyedByName(functions: map<string, Function>) {
    forall n :: n in functions ==> functions[n].name == n
  }

  /** The built-in table holds exactly the thirteen names, each under its
      own name. */
  lemma BuiltinTableShape()
    ensures BuiltinTable.Keys == BuiltinNames
    ensures KeyedByName(BuiltinTable)
  {
  }

  /** Only `time` answers without the evaluator. */
  lemma BuiltinHandlers()
    ensures forall n :: n in BuiltinTable ==>
      (BuiltinTable[n].handler.Some? && (BuiltinTable[n].handler.value == CurrentUnixTime <==> n == "time"))
  {
  }

  /** `rate` and `increase` take one range vector and give an instant
      vector; `time` takes nothing and gives a scalar. */
  lemma BuiltinSignatures()
    ensures BuiltinTable["rate"].args == [RangeVectorArg] && BuiltinTable["rate"].returnType == InstantVectorResult
    ensures BuiltinTable["increase"].args == [RangeVectorArg] && BuiltinTable["increase"].returnType == InstantVectorResult
    ensures BuiltinTable["time"].args == [] && BuiltinTable["time"].returnType == ScalarResult
  {
  }

  /** In a list without repeats that has the same elements as another
      list, the other list has no repeats either. */
  lemma DistinctPermutation(a: seq<string>, b: seq<string>)
    requires forall i, j :: 0 <= i < j < |a| ==> a[i] != a[j]
    requires multiset(a) == multiset(b)
    ensures forall i, j :: 0 <= i < j < |b| ==> b[i] != b[j]
  {
    forall i, j | 0 <= i < j < |b| ensures b[i] != b[j] {
      if b[i] == b[j] {
        RepeatCounted(b, i, j);
        DistinctOnce(a, b[i]);
      }
    }
  }

  /** An element that occurs at two places is counted twice. */
  lemma RepeatCounted(b: seq<string>, i: nat, j: nat)
    requires i < j < |b| && b[i] == b[j]
    ensures multiset(b)[b[i]] >= 2
  {
    assert b == b[..j] + b[j..];
    assert b[i] in b[..j];
    assert b[j] in b[j..];
  }

  class FunctionRegistry {
    var functions: map<string, Function>

    predicate Valid()
      reads this
    {
      KeyedByName(functions)
    }

    /** `NewFunctionRegistry`: an empty table filled with the built-ins. */
    constructor()
      ensures functions == BuiltinTable
      ensures Valid()
    {
      functions := map[];
      new;
      RegisterBuiltinFunctions();
      BuiltinTableShape();
    }

    /** `registerBuiltinFunctions`: thirteen registrations in a row. */
    method RegisterBuiltinFunctions()
      modifies this
      ensures functions == WithBuiltins(old(functions))
    {
      Register(RateFunction);
      Register(IncreaseFunction);
      Register(SumFunction);
      Register(AvgFunction);
      Register(CountFunction);
      Register(MinFunction);
      Register(MaxFunction);
      Register(AbsFunction);
      Register(CeilFunction);
      Register(FloorFunction);
      Register(RoundFunction);
      Register(TimeFunction);
      Register(TimestampFunction);
    }

    /** `Register`: insert or overwrite the entry of `fn.Name`; every other
        entry stays as it was. */
    method Register(fn: Function)
      modifies this
      ensures functions == old(functions)[fn.name := fn]
      ensures old(Valid()) ==> Valid()
      ensures forall n :: n != fn.name ==>
        ((n in functions <==> n in old(functions)) && (n in functions ==> functions[n] == old(functions)[n]))
    {
      functions := functions[fn.name := fn];
    }

    /** `Get`: the entry and whether it exists; the zero `Function` when it
        does not. */
    method Get(name: string) returns (fn: Function, found: bool)
      requires Valid()
      ensures found <==> name in functions
      ensures found ==> fn == functions[name] && fn.name == name
      ensures !found ==> fn == NoFunction
    {
      if name in functions {
        return functions[name], true;
      }
      return NoFunction, false;
    }

    /** `List`: every registered name once, in ascending order. */
    method List() returns (names: seq<string>)
      ensures StrictlySorted(names)
      ensures forall n :: n in names <==> n in functions
    {
      var collected: seq<string> := [];
      var remaining := functions.Keys;
      while remaining != {}
        invariant remaining <= functions.Keys
        invariant forall n :: n in collected <==> n in functions && n !in remaining
        invariant forall i, j :: 0 <= i < j < |collected| ==> collected[i] != collected[j]
        decreases |remaining|
      {
        var n :| n in remaining;
        collected := collected + [n];
        remaining := remaining - {n};
      }
      names := SortStrings(collected);
      DistinctPermutation(collected, names);
      SortedDistinctIsStrict(names);
      forall n ensures n in names <==> n in collected {
        assert n in names <==> n in multiset(names);
        assert n in collected <==> n in multiset(collected);
      }
    }
  }

  // ---------------------------------------------------------------------
  // Point-wise maps

  function Abs(x: real): (r: real)
    ensures r >= 0.0 && (r == x || r == -x)
  {
    if x < 0.0 then -x else x
  }

  /** `math.Floor`: the greatest whole number at or below its argument. */
  function Floor(x: real): (r: real)
    ensures r == r.Floor as real
    ensures r <= x < r + 1.0
  {
    x.Floor as real
  }

  /** `math.Ceil`: the least whole number at or above its argument. */
  function Ceil(x: real): (r: real)
    ensures r == r.Floor as real
    ensures r - 1.0 < x <= r
  {
    var f := (-x).Floor;
    assert f as real <= -x < f as real + 1.0;
    -f as real
  }

  /** `math.Round` on exact reals: a whole number within one half of its
      argument, a tie going away from zero. */
  function Round(x: real): (r: real)
    ensures r == r.Floor as real
    ensures x - 0.5 <= r <= x + 0.5
    ensures x >= 0.0 ==> r > x - 0.5
    ensures x < 0.0 ==> r < x + 0.5
  {
    if x < 0.0 then
      var f := (-x + 0.5).Floor;
      assert f as real <= -x + 0.5 < f as real + 1.0;
      -f as real
    else
      var f := (x + 0.5).Floor;
      assert f as real <= x + 0.5 < f as real + 1.0;
      f as real
  }

  /** A point-wise map: the new value of each point. */
  datatype PointMap = AbsValue | CeilValue | FloorValue | RoundValue | UnixTimestamp

  function NewValue(m: PointMap, p: MetricPoint): real
  {
    match m
    case AbsValue => Abs(p.value)
    case CeilValue => Ceil(p.value)
    case FloorValue => Floor(p.value)
    case RoundValue => Round(p.value)
    case UnixTimestamp => UnixSeconds(p.timestamp) as real
  }

  /** `result` has the shape of `series` and each point carries the new
      value `m` gives it: same series, names, labels, point counts,
      timestamps and point labels. */
  predicate MappedValues(series: seq<MetricSeries>, result: seq<MetricSeries>, m: PointMap) {
    |result| == |series|
    && forall i :: 0 <= i < |series| ==>
      result[i].metricName == series[i].metricName
      && result[i].labels == series[i].labels
      && |result[i].points| == |series[i].points|
      && forall j :: 0 <= j < |series[i].points| ==>
        result[i].points[j] == series[i].points[j].(value := NewValue(m, series[i].points[j]))
  }

  /** The loop the five `Apply*` functions share: one output series per
      input series, one output point per input point. */
  method MapPoints(series: seq<MetricSeries>, m: PointMap) returns (result: seq<MetricSeries>)
    ensures MappedValues(series, result, m)
  {
    result := [];
    for i := 0 to |series|
      invariant |result| == i
      invariant forall k :: 0 <= k < i ==>
        result[k].metricName == series[k].metricName
        && result[k].labels == series[k].labels
        && |result[k].points| == |series[k].points|
        && forall j :: 0 <= j < |series[k].points| ==>
          result[k].points[j] == series[k].points[j].(value := NewValue(m, series[k].points[j]))
    {
      var s := series[i];
      var points: seq<MetricPoint> := [];
      for j := 0 to |s.points|
        invariant |points| == j
        invariant forall l :: 0 <= l < j ==> points[l] == s.points[l].(value := NewValue(m, s.points[l]))
      {
        var point := s.points[j];
        points := points + [MetricPoint(point.timestamp, NewValue(m, point), point.labels)];
      }
      result := result + [MetricSeries(s.metricName, s.labels, points)];
    }
  }

  /** `ApplyAbs`: every value becomes its absolute value, so none is
      negative. */
  method ApplyAbs(series: seq<MetricSeries>) returns (result: seq<MetricSeries>)
    ensures MappedValues(series, result, AbsValue)
    ensures forall i, j :: 0 <= i < |result| && 0 <= j < |result[i].points| ==>
      result[i].points[j].value >= 0.0
      && (result[i].points[j].value == series[i].points[j].value || result[i].points[j].value == -series[i].points[j].value)
  {
    result := MapPoints(series, AbsValue);
  }

  /** `ApplyCeil`. */
  method ApplyCeil(series: seq<MetricSeries>) returns (result: seq<MetricSeries>)
    ensures MappedValues(series, result, CeilValue)
    ensures forall i, j :: 0 <= i < |result| && 0 <= j < |result[i].points| ==>
      result[i].points[j].value - 1.0 < series[i].points[j].value <= result[i].points[j].value
  {
    result := MapPoints(series, CeilValue);
    forall i, j | 0 <= i < |result| && 0 <= j < |result[i].points|
      ensures result[i].points[j].value - 1.0 < series[i].points[j].value <= result[i].points[j].value
    {
    }
  }

  /** `ApplyFloor`. */
  method ApplyFloor(series: seq<MetricSeries>) returns (result: seq<MetricSeries>)
    ensures MappedValues(series, result, FloorValue)
    ensures forall i, j :: 0 <= i < |result| && 0 <= j < |result[i].points| ==>
      result[i].points[j].value <= series[i].points[j].value < result[i].points[j].value + 1.0
  {
    result := MapPoints(series, FloorValue);
    forall i, j | 0 <= i < |result| && 0 <= j < |result[i].points|
      ensures result[i].points[j].value <= series[i].points[j].value < result[i].points[j].value + 1.0
    {
    }
  }

  /** `ApplyRound`. */
  method ApplyRound(series: seq<MetricSeries>) returns (result: seq<MetricSeries>)
    ensures MappedValues(series, result, RoundValue)
    ensures forall i, j :: 0 <= i < |result| && 0 <= j < |result[i].points| ==>
      series[i].points[j].value - 0.5 <= result[i].points[j].value <= series[i].points[j].value + 0.5
  {
    result := MapPoints(series, RoundValue);
    forall i, j | 0 <= i < |result| && 0 <= j < |result[i].points|
      ensures series[i].points[j].value - 0.5 <= result[i].points[j].value <= series[i].points[j].value + 0.5
    {
    }
  }

  /** `ApplyTimestamp`: every value becomes the Unix second of its point. */
  method ApplyTimestamp(series: seq<MetricSeries>) returns (result: seq<MetricSeries>)
    ensures MappedValues(series, result, UnixTimestamp)
    ensures forall i, j :: 0 <= i < |result| && 0 <= j < |result[i].points| ==>
      result[i].points[j].value == UnixSeconds(series[i].points[j].timestamp) as real
  {
    result := MapPoints(series, UnixTimestamp);
  }
}
