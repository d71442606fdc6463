/** The cross-series operations `sum`, `avg`, `count`, `min` and `max`: each
    collapses its input into one series with no labels. */
module PromqlAggregates {
  import opened Wrappers
  import opened Order
  import opened Seqs
  import opened PromqlSeries

  function SeriesPoints(): MetricSeries -> seq<MetricPoint>
  {
    (s: MetricSeries) => s.points
  }

  /** Every point of every series, series by series. */
  function AllPoints(series: seq<MetricSeries>): seq<MetricPoint>
  {
    Concat(series, SeriesPoints())
  }

  /** The points a nested loop over the series and their points has visited
      before point `j` of series `i`. */
  function PointsSoFar(series: seq<MetricSeries>, i: nat, j: nat): seq<MetricPoint>
    requires i < |series| && j <= |series[i].points|
  {
    AllPoints(series[..i]) + series[i].points[..j]
  }

  /** One more inner iteration visits one more point. */
  lemma PointsSoFarStep(series: seq<MetricSeries>, i: nat, j: nat)
    requires i < |series| && j < |series[i].points|
    ensures PointsSoFar(series, i, j + 1) == PointsSoFar(series, i, j) + [series[i].points[j]]
    ensures (PointsSoFar(series, i, j) + [series[i].points[j]])[..|PointsSoFar(series, i, j)|] == PointsSoFar(series, i, j)
  {
    var ps := series[i].points;
    assert ps[..j + 1] == ps[..j] + [ps[j]];
  }

  /** A finished inner loop has visited the whole series. */
  lemma PointsSoFarEnd(series: seq<MetricSeries>, i: nat)
    requires i < |series|
    ensures PointsSoFar(series, i, |series[i].points|) == AllPoints(series[..i + 1])
    ensures PointsSoFar(series, i, 0) == AllPoints(series[..i])
  {
    var ps := series[i].points;
    assert ps[..|ps|] == ps;
    ConcatSnoc(series, i, SeriesPoints());
  }

  /** The outer loop has visited every series. */
  lemma AllPointsEnd(series: seq<MetricSeries>)
    ensures AllPoints(series[..|series|]) == AllPoints(series)
  {
    assert series[..|series|] == series;
  }

  /** The distinct timestamps of some points, ascending: the keys of
      `timestampMap` after `sort.Slice` with `Before`. */
  function Times(ps: seq<MetricPoint>): (r: seq<int>)
    ensures StrictlyAscending(r)
  {
    if ps == [] then [] else InsertInt(ps[|ps| - 1].timestamp, Times(ps[..|ps| - 1]))
  }

  /** A time is collected exactly when some point carries it. */
  lemma {:induction false} TimesMembers(ps: seq<MetricPoint>, t: int)
    ensures t in Times(ps) <==> exists i :: 0 <= i < |ps| && ps[i].timestamp == t
  {
    if ps != [] {
      var init := ps[..|ps| - 1];
      TimesMembers(init, t);
      if t in Times(init) {
        var i :| 0 <= i < |init| && init[i].timestamp == t;
        assert ps[i].timestamp == t;
      }
      if exists i :: 0 <= i < |ps| && ps[i].timestamp == t {
        var i :| 0 <= i < |ps| && ps[i].timestamp == t;
        if i < |init| {
          assert init[i].timestamp == t;
        }
      }
    }
  }

  /** The index of the first point at time `ts`, `|ps|` when there is none:
      the inner scan with `break`. */
  function FirstIndexAt(ps: seq<MetricPoint>, ts: int): (i: nat)
    ensures i <= |ps|
    ensures i < |ps| ==> ps[i].timestamp == ts
    ensures forall j :: 0 <= j < i ==> ps[j].timestamp != ts
  {
    if ps == [] then 0
    else if ps[0].timestamp == ts then 0
    else 1 + FirstIndexAt(ps[1..], ts)
  }

  /** What one series adds to the sum at `ts`: its first point there, if any. */
  function ValueAt(ps: seq<MetricPoint>, ts: int): real
  {
    var i := FirstIndexAt(ps, ts);
    if i < |ps| then ps[i].value else 0.0
  }

  function Has(ps: seq<MetricPoint>, ts: int): nat
  {
    if FirstIndexAt(ps, ts) < |ps| then 1 else 0
  }

  /** The sum at `ts` over the series. */
  function SumAt(series: seq<MetricSeries>, ts: int): real
  {
    if series == [] then 0.0
    else SumAt(series[..|series| - 1], ts) + ValueAt(series[|series| - 1].points, ts)
  }

  /** How many series have a point at `ts`. */
  function CountAt(series: seq<MetricSeries>, ts: int): (n: nat)
    ensures n <= |series|
  {
    if series == [] then 0
    else CountAt(series[..|series| - 1], ts) + Has(series[|series| - 1].points, ts)
  }

  function AvgAt(series: seq<MetricSeries>, ts: int): real
  {
    var count := CountAt(series, ts);
    if count > 0 then SumAt(series, ts) / count as real else 0.0
  }

  function SumPointOf(series: seq<MetricSeries>): int -> MetricPoint
  {
    (ts: int) => MetricPoint(ts, SumAt(series, ts), map[])
  }

  function AvgPointOf(series: seq<MetricSeries>): int -> MetricPoint
  {
    (ts: int) => MetricPoint(ts, AvgAt(series, ts), map[])
  }

  /** `applySum`: empty input comes back as it is; otherwise one unlabelled
      series named after the first, one point per distinct time. */
  function Sum(series: seq<MetricSeries>): (r: seq<MetricSeries>)
    ensures |series| == 0 ==> r == series
    ensures |series| > 0 ==> |r| == 1 && r[0].metricName == series[0].metricName && r[0].labels == map[]
  {
    if |series| == 0 then series
    else [MetricSeries(series[0].metricName, map[], MapSeq(Times(AllPoints(series)), SumPointOf(series)))]
  }

  /** `applyAvg`, shaped like `applySum`. */
  function Avg(series: seq<MetricSeries>): (r: seq<MetricSeries>)
    ensures |series| == 0 ==> r == series
    ensures |series| > 0 ==> |r| == 1 && r[0].metricName == series[0].metricName && r[0].labels == map[]
  {
    if |series| == 0 then series
    else [MetricSeries(series[0].metricName, map[], MapSeq(Times(AllPoints(series)), AvgPointOf(series)))]
  }

  /** Some series has a point at time `t`. */
  ghost predicate Observed(series: seq<MetricSeries>, t: int) {
    exists i, j :: 0 <= i < |series| && 0 <= j < |series[i].points| && series[i].points[j].timestamp == t
  }

  /** A time is among all points exactly when some series has a point there. */
  lemma ObservedIff(series: seq<MetricSeries>, t: int)
    ensures (exists k :: 0 <= k < |AllPoints(series)| && AllPoints(series)[k].timestamp == t) <==> Observed(series, t)
  {
    var all := AllPoints(series);
    if exists k :: 0 <= k < |all| && all[k].timestamp == t {
      var k :| 0 <= k < |all| && all[k].timestamp == t;
      var i := ConcatOrigin(series, SeriesPoints(), all[k]);
      var j :| 0 <= j < |series[i].points| && series[i].points[j] == all[k];
    }
    if Observed(series, t) {
      var i, j :| 0 <= i < |series| && 0 <= j < |series[i].points| && series[i].points[j].timestamp == t;
      ConcatMember(series, i, SeriesPoints(), series[i].points[j]);
      var k :| 0 <= k < |all| && all[k] == series[i].points[j];
    }
  }

  /** The points of a sum and of an average carry the collected times, in
      order. */
  lemma StampsOfTimes(series: seq<MetricSeries>)
    requires |series| > 0
    ensures |Sum(series)[0].points| == |Times(AllPoints(series))| == |Avg(series)[0].points|
    ensures forall k :: 0 <= k < |Sum(series)[0].points| ==>
      Sum(series)[0].points[k].timestamp == Times(AllPoints(series))[k] == Avg(series)[0].points[k].timestamp
  {
  }

  /** The points of a sum (and of an average) are at strictly ascending
      times, and a time appears exactly when some input series has a point
      there. */
  lemma SumTimes(series: seq<MetricSeries>, t: int)
    requires |series| > 0
    ensures forall a, b :: 0 <= a < b < |Sum(series)[0].points| ==>
      Sum(series)[0].points[a].timestamp < Sum(series)[0].points[b].timestamp
    ensures (exists k :: 0 <= k < |Sum(series)[0].points| && Sum(series)[0].points[k].timestamp == t) <==> Observed(series, t)
    ensures (exists k :: 0 <= k < |Avg(series)[0].points| && Avg(series)[0].points[k].timestamp == t) <==> Observed(series, t)
  {
    var times := Times(AllPoints(series));
    var sums := Sum(series)[0].points;
    var avgs := Avg(series)[0].points;
    StampsOfTimes(series);
    TimesMembers(AllPoints(series), t);
    ObservedIff(series, t);
    if t in times {
      var k :| 0 <= k < |times| && times[k] == t;
      assert sums[k].timestamp == t && avgs[k].timestamp == t;
    }
    if exists k :: 0 <= k < |sums| && sums[k].timestamp == t {
      var k :| 0 <= k < |sums| && sums[k].timestamp == t;
      assert times[k] == t;
    }
    if exists k :: 0 <= k < |avgs| && avgs[k].timestamp == t {
      var k :| 0 <= k < |avgs| && avgs[k].timestamp == t;
      assert times[k] == t;
    }
  }

  /** A series with a point at `ts` is counted. */
  lemma {:induction false} CountAtWitness(series: seq<MetricSeries>, ts: int, i: nat, j: nat)
    requires i < |series| && j < |series[i].points| && series[i].points[j].timestamp == ts
    ensures CountAt(series, ts) >= 1
  {
    var init := series[..|series| - 1];
    if i < |init| {
      assert init[i] == series[i];
      CountAtWitness(init, ts, i, j);
    } else {
      assert FirstIndexAt(series[i].points, ts) <= j;
    }
  }

  /** Every time the average is taken at has at least one contributing
      series, so the 0 fallback for an empty count is never emitted. */
  lemma AvgNeverEmpty(series: seq<MetricSeries>, ts: int)
    requires ts in Times(AllPoints(series))
    ensures CountAt(series, ts) >= 1
  {
    TimesMembers(AllPoints(series), ts);
    ObservedIff(series, ts);
    var i, j :| 0 <= i < |series| && 0 <= j < |series[i].points| && series[i].points[j].timestamp == ts;
    CountAtWitness(series, ts, i, j);
  }

  /** Where some series contributes, the average times the count is the sum. */
  lemma AvgIsMean(series: seq<MetricSeries>, ts: int)
    requires CountAt(series, ts) >= 1
    ensures AvgAt(series, ts) * CountAt(series, ts) as real == SumAt(series, ts)
  {
    DivMul(SumAt(series, ts), CountAt(series, ts) as real);
  }

  lemma DivMul(x: real, y: real)
    requires y > 0.0
    ensures x / y * y == x
  {
  }

  /** A series contributes its first point at a time, not a later one. */
  lemma SumTakesFirstPoint(s: MetricSeries, ts: int, j: nat)
    requires j < |s.points| && s.points[j].timestamp == ts
    requires forall m :: 0 <= m < j ==> s.points[m].timestamp != ts
    ensures SumAt([s], ts) == s.points[j].value
    ensures CountAt([s], ts) == 1
  {
    var i := FirstIndexAt(s.points, ts);
    assert i == j;
    assert [s][..0] == [];
  }

  // ---------------------------------------------------------------------
  // count, min, max

  /** `applyCount`: one series named "count" with one point at `now` whose
      value is the number of input series. */
  function Count(series: seq<MetricSeries>, now: int): (r: seq<MetricSeries>)
    ensures |r| == 1 && r[0].metricName == "count" && r[0].labels == map[]
    ensures r[0].points == [MetricPoint(now, |series| as real, map[])]
  {
    [MetricSeries("count", map[], [MetricPoint(now, |series| as real, map[])])]
  }

  /** The running minimum, `None` standing for the `+Inf` seed. */
  function MinOf(ps: seq<MetricPoint>): (r: Option<real>)
    ensures r.None? <==> ps == []
    ensures r.Some? ==> forall i :: 0 <= i < |ps| ==> r.value <= ps[i].value
  {
    if ps == [] then None
    else
      var m := MinOf(ps[..|ps| - 1]);
      var v := ps[|ps| - 1].value;
      if m.None? || v < m.value then Some(v) else m
  }

  /** The running maximum, `None` standing for the `-Inf` seed. */
  function MaxOf(ps: seq<MetricPoint>): (r: Option<real>)
    ensures r.None? <==> ps == []
    ensures r.Some? ==> forall i :: 0 <= i < |ps| ==> ps[i].value <= r.value
  {
    if ps == [] then None
    else
      var m := MaxOf(ps[..|ps| - 1]);
      var v := ps[|ps| - 1].value;
      if m.None? || v > m.value then Some(v) else m
  }

  /** The minimum is the value of some point. */
  lemma {:induction false} MinAttained(ps: seq<MetricPoint>) returns (i: nat)
    requires ps != []
    ensures i < |ps| && ps[i].value == MinOf(ps).value
  {
    var init := ps[..|ps| - 1];
    var m := MinOf(init);
    if m.None? || ps[|ps| - 1].value < m.value {
      i := |ps| - 1;
    } else {
      i := MinAttained(init);
    }
  }

  /** The maximum is the value of some point. */
  lemma {:induction false} MaxAttained(ps: seq<MetricPoint>) returns (i: nat)
    requires ps != []
    ensures i < |ps| && ps[i].value == MaxOf(ps).value
  {
    var init := ps[..|ps| - 1];
    var m := MaxOf(init);
    if m.None? || ps[|ps| - 1].value > m.value {
      i := |ps| - 1;
    } else {
      i := MaxAttained(init);
    }
  }

  /** The value reported for an extremum; the source reports the infinite
      seed when there are no points, the model 0. */
  function Reported(o: Option<real>): real
  {
    if o.Some? then o.value else 0.0
  }

  /** `applyMin`: empty input comes back as it is; otherwise one unlabelled
      series named after the first, with one point at `now`. */
  function Min(series: seq<MetricSeries>, now: int): (r: seq<MetricSeries>)
    ensures |series| == 0 ==> r == series
    ensures |series| > 0 ==> (|r| == 1 && r[0].metricName == series[0].metricName && r[0].labels == map[]
      && |r[0].points| == 1 && r[0].points[0].timestamp == now)
  {
    if |series| == 0 then series
    else [MetricSeries(series[0].metricName, map[], [MetricPoint(now, Reported(MinOf(AllPoints(series))), map[])])]
  }

  function Max(series: seq<MetricSeries>, now: int): (r: seq<MetricSeries>)
    ensures |series| == 0 ==> r == series
    ensures |series| > 0 ==> (|r| == 1 && r[0].metricName == series[0].metricName && r[0].labels == map[]
      && |r[0].points| == 1 && r[0].points[0].timestamp == now)
  {
    if |series| == 0 then series
    else [MetricSeries(series[0].metricName, map[], [MetricPoint(now, Reported(MaxOf(AllPoints(series))), map[])])]
  }

  /** The reported minimum is the value of some input point and no point of
      any series is below it. */
  lemma MinBounds(series: seq<MetricSeries>, now: int, i: nat, j: nat)
    requires i < |series| && j < |series[i].points|
    ensures Min(series, now)[0].points[0].value <= series[i].points[j].value
    ensures exists i', j' :: (0 <= i' < |series| && 0 <= j' < |series[i'].points|
      && Min(series, now)[0].points[0].value == series[i'].points[j'].value)
  {
    var all := AllPoints(series);
    ConcatMember(series, i, SeriesPoints(), series[i].points[j]);
    var k :| 0 <= k < |all| && all[k] == series[i].points[j];
    var w := MinAttained(all);
    var i' := ConcatOrigin(series, SeriesPoints(), all[w]);
    var j' :| 0 <= j' < |series[i'].points| && series[i'].points[j'] == all[w];
  }

  /** The reported maximum is the value of some input point and no point of
      any series is above it. */
  lemma MaxBounds(series: seq<MetricSeries>, now: int, i: nat, j: nat)
    requires i < |series| && j < |series[i].points|
    ensures series[i].points[j].value <= Max(series, now)[0].points[0].value
    ensures exists i', j' :: (0 <= i' < |series| && 0 <= j' < |series[i'].points|
      && Max(series, now)[0].points[0].value == series[i'].points[j'].value)
  {
    var all := AllPoints(series);
    ConcatMember(series, i, SeriesPoints(), series[i].points[j]);
    var k :| 0 <= k < |all| && all[k] == series[i].points[j];
    var w := MaxAttained(all);
    var i' := ConcatOrigin(series, SeriesPoints(), all[w]);
    var j' :| 0 <= j' < |series[i'].points| && series[i'].points[j'] == all[w];
  }
}
