/** The range functions `rate` and `increase`: each point of a series looks
    back over a window of `range` nanoseconds within its own series. */
module PromqlWindows {
  import opened Wrappers
  import opened GoInts
  import opened PromqlSeries

  /** `Duration.Seconds()`. */
  function Seconds(d: int): real { d as real / NanosPerSecond as real }

  /** `point.Timestamp.Add(-rangeDuration)`. The negation is `int64`
      arithmetic, so a range of `MinInt64` negates to itself and the window
      starts 2^63 ns before the point instead of after it. */
  function RangeStart(t: int, range: int): (r: int)
    ensures InInt64(range) && range != MinInt64 ==> r == t - range
    ensures range == MinInt64 ==> r == t - TwoTo63
  {
    t + Wrap64(-range)
  }

  /** A point when there is one, nothing otherwise. */
  function Emit(o: Option<MetricPoint>): seq<MetricPoint>
  {
    if o.Some? then [o.value] else []
  }

  // ---------------------------------------------------------------------
  // rate

  /** The backward scan of `applyRate`: the last point before index `hi`
      whose time is after `bound`. */
  function LastAfter(ps: seq<MetricPoint>, hi: nat, bound: int): (r: Option<nat>)
    requires hi <= |ps|
    ensures r.Some? ==> r.value < hi && ps[r.value].timestamp > bound
    ensures forall k :: (if r.Some? then r.value + 1 else 0) <= k < hi ==> ps[k].timestamp <= bound
  {
    if hi == 0 then None
    else if ps[hi - 1].timestamp > bound then Some(hi - 1)
    else LastAfter(ps, hi - 1, bound)
  }

  /** The per-second rate between two points. A zero time difference is a
      division by zero in the source; the model puts 0 there. */
  function RateValue(prev: MetricPoint, point: MetricPoint): real
  {
    var timeDiff := Seconds(Saturate64(point.timestamp - prev.timestamp));
    if timeDiff == 0.0 then 0.0 else (point.value - prev.value) / timeDiff
  }

  /** The point `applyRate` emits for index `j`, if any. */
  function RateAt(ps: seq<MetricPoint>, j: nat, range: int): (r: Option<MetricPoint>)
    requires j < |ps|
    ensures r.Some? ==> 0 < j && r.value.timestamp == ps[j].timestamp && r.value.labels == ps[j].labels
  {
    if j == 0 then None
    else
      match LastAfter(ps, j, RangeStart(ps[j].timestamp, range))
      case None => None
      case Some(k) => Some(MetricPoint(ps[j].timestamp, RateValue(ps[k], ps[j]), ps[j].labels))
  }

  /** The rate points of the first `n` input points. */
  function RatePoints(ps: seq<MetricPoint>, n: nat, range: int): seq<MetricPoint>
    requires n <= |ps|
  {
    if n == 0 then [] else RatePoints(ps, n - 1, range) + Emit(RateAt(ps, n - 1, range))
  }

  function RateSeries(range: int): MetricSeries -> MetricSeries
  {
    (s: MetricSeries) => MetricSeries(s.metricName, s.labels, RatePoints(s.points, |s.points|, range))
  }

  /** `applyRate`: one output series per input series, same name and labels. */
  function Rate(series: seq<MetricSeries>, range: int): (r: seq<MetricSeries>)
    ensures |r| == |series|
    ensures forall i :: 0 <= i < |r| ==> r[i].metricName == series[i].metricName && r[i].labels == series[i].labels
  {
    MapSeq(series, RateSeries(range))
  }

  /** On points in ascending time, `rate` only ever looks at the point just
      before: it emits at `j > 0` exactly when that point lies inside the
      window, and then divides by the time between the two. */
  lemma RateUsesPrevious(ps: seq<MetricPoint>, j: nat, range: int)
    requires AscendingPoints(ps)
    requires 0 < j < |ps|
    ensures RateAt(ps, j, range).Some? <==> ps[j - 1].timestamp > RangeStart(ps[j].timestamp, range)
    ensures RateAt(ps, j, range).Some? ==>
      RateAt(ps, j, range).value == MetricPoint(ps[j].timestamp, RateValue(ps[j - 1], ps[j]), ps[j].labels)
  {
    var bound := RangeStart(ps[j].timestamp, range);
    if ps[j - 1].timestamp <= bound {
      assert forall k :: 0 <= k < j ==> ps[k].timestamp <= bound;
    }
  }

  /** The first point never has a rate. */
  lemma RateSkipsFirst(ps: seq<MetricPoint>, range: int)
    requires |ps| > 0
    ensures RatePoints(ps, 1, range) == []
  {
  }

  /** Every rate point is no later than the last input point it came from. */
  lemma {:induction false} RatePointsBelow(ps: seq<MetricPoint>, n: nat, range: int, t: int)
    requires n <= |ps|
    requires forall k :: 0 <= k < n ==> ps[k].timestamp <= t
    ensures forall p :: p in RatePoints(ps, n, range) ==> p.timestamp <= t
  {
    if n > 0 {
      RatePointsBelow(ps, n - 1, range, t);
    }
  }

  /** Every rate point carries the time and labels of an input point other
      than the first, which never has a point before it. */
  lemma {:induction false} RatePointsFromInput(ps: seq<MetricPoint>, n: nat, range: int)
    requires n <= |ps|
    ensures forall p :: p in RatePoints(ps, n, range) ==>
      exists k :: 0 < k < n && p.timestamp == ps[k].timestamp && p.labels == ps[k].labels
  {
    if n > 0 {
      RatePointsFromInput(ps, n - 1, range);
      forall p | p in RatePoints(ps, n, range)
        ensures exists k :: 0 < k < n && p.timestamp == ps[k].timestamp && p.labels == ps[k].labels
      {
        if p !in RatePoints(ps, n - 1, range) {
          assert p == RateAt(ps, n - 1, range).value;
          assert 0 < n - 1 && p.timestamp == ps[n - 1].timestamp;
        }
      }
    }
  }

  /** Rate points keep the input's time order. */
  lemma {:induction false} RatePointsAscending(ps: seq<MetricPoint>, n: nat, range: int)
    requires n <= |ps| && AscendingPoints(ps)
    ensures AscendingPoints(RatePoints(ps, n, range))
  {
    if n > 0 {
      RatePointsAscending(ps, n - 1, range);
      RatePointsBelow(ps, n - 1, range, ps[n - 1].timestamp);
      EmitAscending(RatePoints(ps, n - 1, range), RateAt(ps, n - 1, range), ps[n - 1].timestamp);
    }
  }

  /** Emitting a point no earlier one exceeds keeps the points ascending. */
  lemma EmitAscending(points: seq<MetricPoint>, o: Option<MetricPoint>, t: int)
    requires AscendingPoints(points)
    requires forall p :: p in points ==> p.timestamp <= t
    requires o.Some? ==> o.value.timestamp == t
    ensures AscendingPoints(points + Emit(o))
  {
    var r := points + Emit(o);
    forall a, b | 0 <= a < b < |r|
      ensures r[a].timestamp <= r[b].timestamp
    {
      if b == |points| {
        assert r[a] in points;
      }
    }
  }

  // ---------------------------------------------------------------------
  // increase

  /** The backward scan of `applyIncrease`: the last point before index `hi`
      whose time is at or before `bound`. */
  function LastAtOrBefore(ps: seq<MetricPoint>, hi: nat, bound: int): (r: Option<nat>)
    requires hi <= |ps|
    ensures r.Some? ==> r.value < hi && ps[r.value].timestamp <= bound
    ensures forall k :: (if r.Some? then r.value + 1 else 0) <= k < hi ==> ps[k].timestamp > bound
  {
    if hi == 0 then None
    else if ps[hi - 1].timestamp <= bound then Some(hi - 1)
    else LastAtOrBefore(ps, hi - 1, bound)
  }

  /** The point `applyIncrease` emits for index `j`, if any; the scan starts
      at `j` itself. */
  function IncreaseAt(ps: seq<MetricPoint>, j: nat, range: int): (r: Option<MetricPoint>)
    requires j < |ps|
    ensures r.Some? ==> r.value.timestamp == ps[j].timestamp && r.value.labels == ps[j].labels
  {
    match LastAtOrBefore(ps, j + 1, RangeStart(ps[j].timestamp, range))
    case None => None
    case Some(k) => Some(MetricPoint(ps[j].timestamp, ps[j].value - ps[k].value, ps[j].labels))
  }

  function IncreasePoints(ps: seq<MetricPoint>, n: nat, range: int): seq<MetricPoint>
    requires n <= |ps|
  {
    if n == 0 then [] else IncreasePoints(ps, n - 1, range) + Emit(IncreaseAt(ps, n - 1, range))
  }

  function IncreaseSeries(range: int): MetricSeries -> MetricSeries
  {
    (s: MetricSeries) => MetricSeries(s.metricName, s.labels, IncreasePoints(s.points, |s.points|, range))
  }

  /** `applyIncrease`: one output series per input series, same name and labels. */
  function Increase(series: seq<MetricSeries>, range: int): (r: seq<MetricSeries>)
    ensures |r| == |series|
    ensures forall i :: 0 <= i < |r| ==> r[i].metricName == series[i].metricName && r[i].labels == series[i].labels
  {
    MapSeq(series, IncreaseSeries(range))
  }

  /** `increase` emits at `j` exactly when some point up to `j` is at or
      before the window start; it then subtracts the last such point. */
  lemma IncreaseEmitsIff(ps: seq<MetricPoint>, j: nat, range: int)
    requires j < |ps|
    ensures IncreaseAt(ps, j, range).Some? <==>
      exists k :: 0 <= k <= j && ps[k].timestamp <= RangeStart(ps[j].timestamp, range)
    ensures IncreaseAt(ps, j, range).Some? ==>
      exists k :: 0 <= k <= j && ps[k].timestamp <= RangeStart(ps[j].timestamp, range)
        && (forall m :: k < m <= j ==> ps[m].timestamp > RangeStart(ps[j].timestamp, range))
        && IncreaseAt(ps, j, range).value == MetricPoint(ps[j].timestamp, ps[j].value - ps[k].value, ps[j].labels)
  {
    var r := LastAtOrBefore(ps, j + 1, RangeStart(ps[j].timestamp, range));
    if r.Some? {
      var k := r.value;
      assert forall m :: k < m <= j ==> ps[m].timestamp > RangeStart(ps[j].timestamp, range);
    }
  }

  /** A range of `MinInt64` puts the window start 2^63 ns before every
      point: `rate` then pairs each point with the one before it, and
      `increase` finds no start point among times that are not negative. */
  lemma MinRangeWindow(ps: seq<MetricPoint>, j: nat)
    requires AscendingPoints(ps)
    requires j < |ps|
    requires forall k :: 0 <= k < |ps| ==> 0 <= ps[k].timestamp <= MaxInt64
    ensures 0 < j ==> RateAt(ps, j, MinInt64).Some?
    ensures IncreaseAt(ps, j, MinInt64) == None
  {
    if 0 < j {
      RateUsesPrevious(ps, j, MinInt64);
    }
    IncreaseEmitsIff(ps, j, MinInt64);
  }

  /** With a window that does not reach into the past, every point emits
      an increase of 0 against itself. */
  lemma IncreaseZeroRange(ps: seq<MetricPoint>, j: nat)
    requires j < |ps|
    ensures IncreaseAt(ps, j, 0) == Some(MetricPoint(ps[j].timestamp, 0.0, ps[j].labels))
  {
  }

  /** Every increase point is no later than the last input point it came from. */
  lemma {:induction false} IncreasePointsBelow(ps: seq<MetricPoint>, n: nat, range: int, t: int)
    requires n <= |ps|
    requires forall k :: 0 <= k < n ==> ps[k].timestamp <= t
    ensures forall p :: p in IncreasePoints(ps, n, range) ==> p.timestamp <= t
  {
    if n > 0 {
      IncreasePointsBelow(ps, n - 1, range, t);
    }
  }

  /** Every increase point carries the time and labels of an input point. */
  lemma {:induction false} IncreasePointsFromInput(ps: seq<MetricPoint>, n: nat, range: int)
    requires n <= |ps|
    ensures forall p :: p in IncreasePoints(ps, n, range) ==>
      exists k :: 0 <= k < n && p.timestamp == ps[k].timestamp && p.labels == ps[k].labels
  {
    if n > 0 {
      IncreasePointsFromInput(ps, n - 1, range);
      forall p | p in IncreasePoints(ps, n, range)
        ensures exists k :: 0 <= k < n && p.timestamp == ps[k].timestamp && p.labels == ps[k].labels
      {
        if p !in IncreasePoints(ps, n - 1, range) {
          assert p == IncreaseAt(ps, n - 1, range).value;
          assert p.timestamp == ps[n - 1].timestamp;
        }
      }
    }
  }

  /** Increase points keep the input's time order. */
  lemma {:induction false} IncreasePointsAscending(ps: seq<MetricPoint>, n: nat, range: int)
    requires n <= |ps| && AscendingPoints(ps)
    ensures AscendingPoints(IncreasePoints(ps, n, range))
  {
    if n > 0 {
      IncreasePointsAscending(ps, n - 1, range);
      IncreasePointsBelow(ps, n - 1, range, ps[n - 1].timestamp);
      EmitAscending(IncreasePoints(ps, n - 1, range), IncreaseAt(ps, n - 1, range), ps[n - 1].timestamp);
    }
  }
}
