/**
 * The PredictionChart component: the per-interval series {name, min, max, avg}
 * and the pooled statistics {mean, median, min, max} drawn from one forecast.
 * A forecast is a sequence of intervals; an interval should be an array of
 * route entries, and a route entry a number or an array of leaves.
 */
module PredictionChart {
  import opened Json
  import opened Extraction
  import opened Samples
  import Decimal

  datatype ChartPoint = ChartPoint(name: string, min: real, max: real, avg: real)

  datatype GlobalStats = GlobalStats(mean: real, median: real, min: real, max: real)

  /** The label `T+${timeStep + 1}` of the interval at index timeStep. */
  function Label(timeStep: nat): string
  {
    "T+" + Decimal.NatToString(timeStep + 1)
  }

  /** A label is `T+` followed by the digits, without a leading zero, of the one-based position. */
  lemma LabelText(timeStep: nat)
    ensures |Label(timeStep)| >= 3 && Label(timeStep)[..2] == "T+"
    ensures Decimal.IsDigits(Label(timeStep)[2..]) && Decimal.DigitsValue(Label(timeStep)[2..]) == timeStep + 1
    ensures Label(timeStep)[2] != '0'
  {
    var digits := Decimal.NatToString(timeStep + 1);
    Decimal.DigitsRoundTrip(timeStep + 1);
    assert Label(timeStep)[2..] == digits;
  }

  /** Labels are distinct: the series has no repeated and no skipped position. */
  lemma LabelsDistinct(i: nat, j: nat)
    ensures Label(i) == Label(j) <==> i == j
  {
    if Label(i) == Label(j) {
      assert Label(i)[2..] == Decimal.NatToString(i + 1);
      assert Label(j)[2..] == Decimal.NatToString(j + 1);
      Decimal.NatToStringInjective(i + 1, j + 1);
    }
  }

  /** The samples of one route entry: leaves of an array, or the entry itself when it is a number that is not NaN. */
  function RouteSamples(route: Value, parseFloat: string -> Option<real>): seq<real>
  {
    match route
    case Arr(leaves) => LeafSamples(leaves, parseFloat)
    case Num(x) => [x]
    case _ => []
  }

  function RoutesSamples(routes: seq<Value>, parseFloat: string -> Option<real>): seq<real>
  {
    if routes == [] then []
    else RoutesSamples(routes[..|routes| - 1], parseFloat) + RouteSamples(routes[|routes| - 1], parseFloat)
  }

  lemma RoutesSamplesStep(routes: seq<Value>, parseFloat: string -> Option<real>, r: nat)
    requires r < |routes|
    ensures RoutesSamples(routes[..r + 1], parseFloat) == RoutesSamples(routes[..r], parseFloat) + RouteSamples(routes[r], parseFloat)
  {
    assert routes[..r + 1][..r] == routes[..r];
  }

  /** The samples of one interval; an interval that is not an array has none. */
  function IntervalSamples(interval: Value, parseFloat: string -> Option<real>): seq<real>
  {
    if interval.Arr? then RoutesSamples(interval.items, parseFloat) else []
  }

  /** A route entry supplies x when it is the number x, or an array one of whose leaves yields x. */
  ghost predicate Supplies(route: Value, parseFloat: string -> Option<real>, x: real) {
    || route == Num(x)
    || (route.Arr? && exists j :: 0 <= j < |route.items| && LeafNumber(route.items[j], parseFloat) == Some(x))
  }

  /** A single route entry supplies x exactly when x is among its collected samples. */
  lemma RouteSamplesMembers(route: Value, parseFloat: string -> Option<real>, x: real)
    ensures x in RouteSamples(route, parseFloat) <==> Supplies(route, parseFloat, x)
  {
    if route.Arr? {
      LeafSamplesMembers(route.items, parseFloat, x);
    }
  }

  /** The acceptance rule: x is collected from an interval exactly when one of its route entries supplies x. */
  lemma {:induction false} RoutesSamplesMembers(routes: seq<Value>, parseFloat: string -> Option<real>, x: real)
    ensures x in RoutesSamples(routes, parseFloat) <==>
            exists i :: 0 <= i < |routes| && Supplies(routes[i], parseFloat, x)
  {
    if routes != [] {
      var init, last := routes[..|routes| - 1], routes[|routes| - 1];
      RoutesSamplesMembers(init, parseFloat, x);
      RouteSamplesMembers(last, parseFloat, x);
      assert RoutesSamples(routes, parseFloat) == RoutesSamples(init, parseFloat) + RouteSamples(last, parseFloat);
      if x in RoutesSamples(routes, parseFloat) {
        if x in RoutesSamples(init, parseFloat) {
          var i :| 0 <= i < |init| && Supplies(init[i], parseFloat, x);
          assert routes[i] == init[i];
        }
      }
      if exists i :: 0 <= i < |routes| && Supplies(routes[i], parseFloat, x) {
        var i :| 0 <= i < |routes| && Supplies(routes[i], parseFloat, x);
        if i < |init| {
          assert init[i] == routes[i];
        }
      }
    }
  }

  /** The chart entry of the interval at index timeStep. */
  function IntervalPoint(timeStep: nat, interval: Value, parseFloat: string -> Option<real>): ChartPoint
  {
    var s := IntervalSamples(interval, parseFloat);
    if s == [] then ChartPoint(Label(timeStep), 0.0, 0.0, 0.0)
    else ChartPoint(Label(timeStep), Least(s), Greatest(s), Mean(s))
  }

  /**
   * What a chart entry says about its interval: the position label; zeros (never
   * an infinity) when the interval yields no sample; otherwise the least and the
   * greatest sample, and their mean sum / count, which lies between them.
   */
  lemma IntervalPointMeaning(timeStep: nat, interval: Value, parseFloat: string -> Option<real>)
    ensures IntervalPoint(timeStep, interval, parseFloat).name == "T+" + Decimal.NatToString(timeStep + 1)
    ensures var p, s := IntervalPoint(timeStep, interval, parseFloat), IntervalSamples(interval, parseFloat);
            s == [] ==> p.min == 0.0 && p.max == 0.0 && p.avg == 0.0
    ensures var p, s := IntervalPoint(timeStep, interval, parseFloat), IntervalSamples(interval, parseFloat);
            s != [] ==>
              && p.min in s && p.max in s
              && (forall i :: 0 <= i < |s| ==> p.min <= s[i] <= p.max)
              && p.min <= p.avg <= p.max
              && p.avg == Sum(s) / (|s| as real)
  {
  }

  /** An extended real, for the running Math.min / Math.max seeded with Infinity / -Infinity. */
  datatype Extended = NegInfinity | Finite(r: real) | PosInfinity

  /** The order of the extended reals: -Infinity below every real, Infinity above. */
  predicate AtMost(a: Extended, b: Extended) {
    match (a, b)
    case (NegInfinity, _) => true
    case (_, PosInfinity) => true
    case (Finite(x), Finite(y)) => x <= y
    case _ => false
  }

  /** `Math.min(a, b)`: the smaller of its two arguments. */
  function MathMin(a: Extended, b: real): Extended
  {
    match a
    case NegInfinity => NegInfinity
    case Finite(x) => if b < x then Finite(b) else Finite(x)
    case PosInfinity => Finite(b)
  }

  /** `Math.max(a, b)`: the larger of its two arguments. */
  function MathMax(a: Extended, b: real): Extended
  {
    match a
    case NegInfinity => Finite(b)
    case Finite(x) => if x < b then Finite(b) else Finite(x)
    case PosInfinity => PosInfinity
  }

  /** Math.min returns one of its arguments, and that one is at most both. */
  lemma MathMinMeaning(a: Extended, b: real)
    ensures MathMin(a, b) == a || MathMin(a, b) == Finite(b)
    ensures AtMost(MathMin(a, b), a) && AtMost(MathMin(a, b), Finite(b))
  {
  }

  /** Math.max returns one of its arguments, and that one is at least both. */
  lemma MathMaxMeaning(a: Extended, b: real)
    ensures MathMax(a, b) == a || MathMax(a, b) == Finite(b)
    ensures AtMost(a, MathMax(a, b)) && AtMost(Finite(b), MathMax(a, b))
  {
  }

  /** The running sum, count, Math.min and Math.max of one interval (the fields of `timestepData`). */
  datatype Accumulator = Accumulator(sum: real, count: nat, min: Extended, max: Extended)

  const Fresh := Accumulator(0.0, 0, PosInfinity, NegInfinity)

  /** The accumulator after the samples `seen`. */
  ghost predicate Running(seen: seq<real>, acc: Accumulator) {
    && acc.sum == Sum(seen)
    && acc.count == |seen|
    && acc.min == (if seen == [] then PosInfinity else Finite(Least(seen)))
    && acc.max == (if seen == [] then NegInfinity else Finite(Greatest(seen)))
  }

  function Add(acc: Accumulator, v: real): Accumulator
  {
    Accumulator(acc.sum + v, acc.count + 1, MathMin(acc.min, v), MathMax(acc.max, v))
  }

  lemma RunningStep(seen: seq<real>, acc: Accumulator, v: real)
    requires Running(seen, acc)
    ensures Running(seen + [v], Add(acc, v))
  {
    var next := seen + [v];
    assert next[..|next| - 1] == seen;
    SumAppend(seen, v);
  }

  /** The inner `routeData.forEach`: every leaf that yields a number updates the accumulators. */
  method AccumulateLeaves(leaves: seq<Value>, parseFloat: string -> Option<real>, acc: Accumulator, ghost seen: seq<real>)
    returns (next: Accumulator)
    requires Running(seen, acc)
    ensures Running(seen + LeafSamples(leaves, parseFloat), next)
  {
    next := acc;
    assert seen + LeafSamples(leaves[..0], parseFloat) == seen;
    for l := 0 to |leaves|
      invariant Running(seen + LeafSamples(leaves[..l], parseFloat), next)
    {
      LeafSamplesStep(leaves, parseFloat, l);
      ghost var sofar := seen + LeafSamples(leaves[..l], parseFloat);
      var numValue := LeafNumber(leaves[l], parseFloat);
      assert seen + LeafSamples(leaves[..l + 1], parseFloat) == sofar + Accepted(numValue);
      if numValue.Some? {
        RunningStep(sofar, next, numValue.value);
        next := Add(next, numValue.value);
      } else {
        assert sofar + Accepted(numValue) == sofar;
      }
    }
    assert leaves[..|leaves|] == leaves;
  }

  /** The outer `forEach` over the route entries of one interval. */
  method AccumulateInterval(interval: Value, parseFloat: string -> Option<real>) returns (acc: Accumulator)
    ensures Running(IntervalSamples(interval, parseFloat), acc)
  {
    acc := Fresh;
    if interval.Arr? {
      var routes := interval.items;
      for r := 0 to |routes|
        invariant Running(RoutesSamples(routes[..r], parseFloat), acc)
      {
        RoutesSamplesStep(routes, parseFloat, r);
        ghost var sofar := RoutesSamples(routes[..r], parseFloat);
        match routes[r] {
          case Arr(leaves) =>
            acc := AccumulateLeaves(leaves, parseFloat, acc, sofar);
          case Num(x) =>
            RunningStep(sofar, acc, x);
            acc := Add(acc, x);
          case _ =>
            assert sofar + RouteSamples(routes[r], parseFloat) == sofar;
        }
      }
      assert routes[..|routes|] == routes;
    }
  }

  /** One chart entry: avg from sum and count, and the untouched infinite seeds replaced by 0. */
  method IntervalEntry(timeStep: nat, interval: Value, parseFloat: string -> Option<real>) returns (p: ChartPoint)
    ensures p == IntervalPoint(timeStep, interval, parseFloat)
  {
    var acc := AccumulateInterval(interval, parseFloat);
    var avg := if acc.count > 0 then acc.sum / acc.count as real else 0.0;
    var min := if acc.min.Finite? then acc.min.r else 0.0;
    var max := if acc.max.Finite? then acc.max.r else 0.0;
    p := ChartPoint(Label(timeStep), min, max, avg);
  }

  /** The entries of the intervals, in order. */
  function Series(predictions: seq<Value>, parseFloat: string -> Option<real>): seq<ChartPoint>
  {
    if predictions == [] then []
    else Series(predictions[..|predictions| - 1], parseFloat)
         + [IntervalPoint(|predictions| - 1, predictions[|predictions| - 1], parseFloat)]
  }

  lemma SeriesStep(predictions: seq<Value>, parseFloat: string -> Option<real>, t: nat)
    requires t < |predictions|
    ensures Series(predictions[..t + 1], parseFloat) == Series(predictions[..t], parseFloat) + [IntervalPoint(t, predictions[t], parseFloat)]
  {
    assert predictions[..t + 1][..t] == predictions[..t];
  }

  /** The series has one entry per interval, and entry k is that of interval k. */
  lemma {:induction false} SeriesLength(predictions: seq<Value>, parseFloat: string -> Option<real>)
    ensures |Series(predictions, parseFloat)| == |predictions|
  {
    if predictions != [] {
      SeriesLength(predictions[..|predictions| - 1], parseFloat);
    }
  }

  lemma {:induction false} SeriesAt(predictions: seq<Value>, parseFloat: string -> Option<real>, k: nat)
    requires k < |predictions|
    ensures |Series(predictions, parseFloat)| == |predictions|
    ensures Series(predictions, parseFloat)[k] == IntervalPoint(k, predictions[k], parseFloat)
  {
    var n := |predictions|;
    var init := predictions[..n - 1];
    var last := IntervalPoint(n - 1, predictions[n - 1], parseFloat);
    SeriesLength(predictions, parseFloat);
    SeriesLength(init, parseFloat);
    assert Series(predictions, parseFloat) == Series(init, parseFloat) + [last];
    if k < n - 1 {
      SeriesAt(init, parseFloat, k);
      assert init[k] == predictions[k];
    }
  }

  /** The `chartData` computation: one entry per interval, in order. */
  method ChartData(predictions: seq<Value>, parseFloat: string -> Option<real>) returns (data: seq<ChartPoint>)
    ensures data == Series(predictions, parseFloat)
  {
    data := [];
    if |predictions| == 0 {
      return;
    }
    for timeStep := 0 to |predictions|
      invariant data == Series(predictions[..timeStep], parseFloat)
    {
      SeriesStep(predictions, parseFloat, timeStep);
      var entry := IntervalEntry(timeStep, predictions[timeStep], parseFloat);
      data := data + [entry];
    }
    assert predictions[..|predictions|] == predictions;
  }

  /** Every accepted sample of every interval, interval by interval. */
  function Pooled(predictions: seq<Value>, parseFloat: string -> Option<real>): seq<real>
  {
    if predictions == [] then []
    else Pooled(predictions[..|predictions| - 1], parseFloat) + IntervalSamples(predictions[|predictions| - 1], parseFloat)
  }

  lemma PooledStep(predictions: seq<Value>, parseFloat: string -> Option<real>, t: nat)
    requires t < |predictions|
    ensures Pooled(predictions[..t + 1], parseFloat) == Pooled(predictions[..t], parseFloat) + IntervalSamples(predictions[t], parseFloat)
  {
    assert predictions[..t + 1][..t] == predictions[..t];
  }

  function IntervalSums(predictions: seq<Value>, parseFloat: string -> Option<real>): (r: seq<real>)
    ensures |r| == |predictions|
  {
    seq(|predictions|, k requires 0 <= k < |predictions| => Sum(IntervalSamples(predictions[k], parseFloat)))
  }

  function IntervalCounts(predictions: seq<Value>, parseFloat: string -> Option<real>): (r: seq<real>)
    ensures |r| == |predictions|
  {
    seq(|predictions|, k requires 0 <= k < |predictions| => |IntervalSamples(predictions[k], parseFloat)| as real)
  }

  /** The pooled sum is the sum of the interval sums, and the pooled count the sum of the interval counts. */
  lemma {:induction false} PooledTotals(predictions: seq<Value>, parseFloat: string -> Option<real>)
    ensures Sum(Pooled(predictions, parseFloat)) == Sum(IntervalSums(predictions, parseFloat))
    ensures |Pooled(predictions, parseFloat)| as real == Sum(IntervalCounts(predictions, parseFloat))
  {
    if predictions != [] {
      var n := |predictions|;
      var init := predictions[..n - 1];
      var last := IntervalSamples(predictions[n - 1], parseFloat);
      PooledTotals(init, parseFloat);
      SumConcat(Pooled(init, parseFloat), last);
      assert IntervalSums(predictions, parseFloat)[..n - 1] == IntervalSums(init, parseFloat);
      assert IntervalCounts(predictions, parseFloat)[..n - 1] == IntervalCounts(init, parseFloat);
    }
  }

  /** The middle element of the ascending rearrangement is a sample between the least and the greatest. */
  lemma MiddleInside(values: seq<real>)
    requires values != []
    ensures SortAscending(values)[|values| / 2] in values
    ensures Least(values) <= SortAscending(values)[|values| / 2] <= Greatest(values)
  {
    var sorted := SortAscending(values);
    var m := sorted[|values| / 2];
    assert m in multiset(sorted);
    assert m in multiset(values);
    var i :| 0 <= i < |values| && values[i] == m;
  }

  /** The global statistics of the pooled samples; all zero when there are none. */
  function GlobalStatsOf(values: seq<real>): (g: GlobalStats)
    ensures values == [] ==> g == GlobalStats(0.0, 0.0, 0.0, 0.0)
    ensures values != [] ==>
              && g.min == Least(values) && g.max == Greatest(values)
              && g.mean == Sum(values) / (|values| as real)
              && g.min <= g.mean <= g.max
              && g.median in values
              && g.min <= g.median <= g.max
              && g.median == SortAscending(values)[|values| / 2]
  {
    if values == [] then GlobalStats(0.0, 0.0, 0.0, 0.0)
    else
      var sorted := SortAscending(values);
      SortedEnds(values);
      MiddleInside(values);
      GlobalStats(Mean(values), sorted[|sorted| / 2], sorted[0], sorted[|sorted| - 1])
  }

  /** One route entry of the `stats` pass: the leaves of an array, or a bare number, are pushed. */
  method CollectRoute(route: Value, parseFloat: string -> Option<real>, allValues: seq<real>)
    returns (next: seq<real>)
    ensures next == allValues + RouteSamples(route, parseFloat)
  {
    match route {
      case Arr(leaves) =>
        next := CollectLeaves(leaves, parseFloat, allValues);
      case Num(x) =>
        next := allValues + [x];
      case _ =>
        next := allValues;
    }
  }

  /** The `timestep.forEach` of the `stats` pass, pushing the samples of one interval. */
  method CollectInterval(interval: Value, parseFloat: string -> Option<real>, allValues: seq<real>)
    returns (next: seq<real>)
    ensures next == allValues + IntervalSamples(interval, parseFloat)
  {
    next := allValues;
    if interval.Arr? {
      var routes := interval.items;
      for r := 0 to |routes|
        invariant next == allValues + RoutesSamples(routes[..r], parseFloat)
      {
        RoutesSamplesStep(routes, parseFloat, r);
        next := CollectRoute(routes[r], parseFloat, next);
      }
      assert routes[..|routes|] == routes;
    }
  }

  /** The `stats` computation: every accepted sample is pushed, then sorted and reduced. */
  method Stats(predictions: seq<Value>, parseFloat: string -> Option<real>) returns (stats: GlobalStats)
    ensures stats == GlobalStatsOf(Pooled(predictions, parseFloat))
  {
    var allValues: seq<real> := [];
    if |predictions| == 0 {
      return GlobalStats(0.0, 0.0, 0.0, 0.0);
    }
    for t := 0 to |predictions|
      invariant allValues == Pooled(predictions[..t], parseFloat)
    {
      PooledStep(predictions, parseFloat, t);
      allValues := CollectInterval(predictions[t], parseFloat, allValues);
    }
    assert predictions[..|predictions|] == predictions;
    if |allValues| == 0 {
      return GlobalStats(0.0, 0.0, 0.0, 0.0);
    }
    var sorted := SortAscending(allValues);
    var mean := Sum(allValues) / |allValues| as real;
    stats := GlobalStats(mean, sorted[|sorted| / 2], sorted[0], sorted[|sorted| - 1]);
  }

  /**
   * The global mean equals the interval sums added up, divided by the interval
   * counts added up: each interval's sum is its avg times its count.
   */
  lemma GlobalMeanFromIntervals(predictions: seq<Value>, parseFloat: string -> Option<real>)
    requires Pooled(predictions, parseFloat) != []
    ensures Sum(IntervalCounts(predictions, parseFloat)) > 0.0
    ensures GlobalStatsOf(Pooled(predictions, parseFloat)).mean
            == Sum(IntervalSums(predictions, parseFloat)) / Sum(IntervalCounts(predictions, parseFloat))
  {
    PooledTotals(predictions, parseFloat);
  }
}
