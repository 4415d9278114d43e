/**
 * The PredictionSummary component: its own extraction pass (leaves of per-route
 * arrays only), min / max / avg of what it collects, the five-way traffic
 * condition chosen from avg, and the travel recommendation chosen from that.
 */
module PredictionSummary {
  import opened Json
  import opened Extraction
  import opened Samples
  import PredictionChart

  /** The traffic condition `{level, color}`; each level carries its fixed colour. */
  datatype Level = VeryLight | Light | Moderate | Heavy | VeryHeavy
  {
    function Name(): string {
      match this
      case VeryLight => "Very Light"
      case Light => "Light"
      case Moderate => "Moderate"
      case Heavy => "Heavy"
      case VeryHeavy => "Very Heavy"
    }

    function Color(): string {
      match this
      case VeryLight => "#48bb78"
      case Light => "#38a169"
      case Moderate => "#ed8936"
      case Heavy => "#f56565"
      case VeryHeavy => "#e53e3e"
    }

    /** Position in the order from lightest to heaviest. */
    function Rank(): nat {
      match this
      case VeryLight => 0
      case Light => 1
      case Moderate => 2
      case Heavy => 3
      case VeryHeavy => 4
    }
  }

  /** The band of averages each level stands for, lower bounds closed and upper bounds open. */
  predicate InBand(level: Level, avg: real) {
    match level
    case VeryLight => avg < -1.0
    case Light => -1.0 <= avg < 0.0
    case Moderate => 0.0 <= avg < 0.5
    case Heavy => 0.5 <= avg < 1.0
    case VeryHeavy => 1.0 <= avg
  }

  /** `getTrafficCondition`: the thresholds tried top-down; every real lands in exactly one band. */
  function GetTrafficCondition(avgFlow: real): (level: Level)
    ensures InBand(level, avgFlow)
  {
    if avgFlow < -1.0 then VeryLight
    else if avgFlow < 0.0 then Light
    else if avgFlow < 0.5 then Moderate
    else if avgFlow < 1.0 then Heavy
    else VeryHeavy
  }

  /** The bands do not overlap: a level is chosen exactly when avg lies in its band. */
  lemma ConditionMatchesBand(avgFlow: real, level: Level)
    ensures GetTrafficCondition(avgFlow) == level <==> InBand(level, avgFlow)
  {
  }

  /** The boundaries belong to the heavier side. */
  lemma ConditionBoundaries()
    ensures GetTrafficCondition(-1.0) == Light
    ensures GetTrafficCondition(0.0) == Moderate
    ensures GetTrafficCondition(0.5) == Heavy
    ensures GetTrafficCondition(1.0) == VeryHeavy
  {
  }

  /** A larger average never gives a lighter level. */
  lemma ConditionMonotone(a: real, b: real)
    requires a <= b
    ensures GetTrafficCondition(a).Rank() <= GetTrafficCondition(b).Rank()
  {
  }

  /** The level names are distinct, so a level is recognised by its name. */
  lemma NamesDistinct(l: Level, m: Level)
    ensures l.Name() == m.Name() <==> l == m
  {
  }

  /** The test `level === 'Light' || level === 'Very Light'`. */
  predicate GreatTimeToTravel(level: Level) {
    level.Name() == "Light" || level.Name() == "Very Light"
  }

  /** The advice of the trip-planning line. */
  function Recommendation(level: Level): (advice: string)
    ensures advice == "it's a great time to travel!" <==> GreatTimeToTravel(level)
    ensures !GreatTimeToTravel(level) ==> advice == "you might want to consider alternative times or routes."
  {
    if GreatTimeToTravel(level) then "it's a great time to travel!"
    else "you might want to consider alternative times or routes."
  }

  /** "A great time to travel" is recommended exactly when the average is negative. */
  lemma RecommendationIffNegative(avgFlow: real)
    ensures GreatTimeToTravel(GetTrafficCondition(avgFlow)) <==> avgFlow < 0.0
    ensures GreatTimeToTravel(GetTrafficCondition(avgFlow)) <==> GetTrafficCondition(avgFlow) in {VeryLight, Light}
  {
    var level := GetTrafficCondition(avgFlow);
    NamesDistinct(level, Light);
    NamesDistinct(level, VeryLight);
  }

  /** The samples of one route entry for the summary: only the leaves of an array; a bare number is ignored. */
  function NestedRouteSamples(route: Value, parseFloat: string -> Option<real>): seq<real>
  {
    if route.Arr? then LeafSamples(route.items, parseFloat) else []
  }

  function NestedRoutesSamples(routes: seq<Value>, parseFloat: string -> Option<real>): seq<real>
  {
    if routes == [] then []
    else NestedRoutesSamples(routes[..|routes| - 1], parseFloat) + NestedRouteSamples(routes[|routes| - 1], parseFloat)
  }

  lemma NestedRoutesSamplesStep(routes: seq<Value>, parseFloat: string -> Option<real>, r: nat)
    requires r < |routes|
    ensures NestedRoutesSamples(routes[..r + 1], parseFloat)
         == NestedRoutesSamples(routes[..r], parseFloat) + NestedRouteSamples(routes[r], parseFloat)
  {
    assert routes[..r + 1][..r] == routes[..r];
  }

  function NestedIntervalSamples(interval: Value, parseFloat: string -> Option<real>): seq<real>
  {
    if interval.Arr? then NestedRoutesSamples(interval.items, parseFloat) else []
  }

  /** Everything the summary collects, interval by interval. */
  function NestedPool(predictions: seq<Value>, parseFloat: string -> Option<real>): seq<real>
  {
    if predictions == [] then []
    else NestedPool(predictions[..|predictions| - 1], parseFloat) + NestedIntervalSamples(predictions[|predictions| - 1], parseFloat)
  }

  lemma NestedPoolStep(predictions: seq<Value>, parseFloat: string -> Option<real>, t: nat)
    requires t < |predictions|
    ensures NestedPool(predictions[..t + 1], parseFloat) == NestedPool(predictions[..t], parseFloat) + NestedIntervalSamples(predictions[t], parseFloat)
  {
    assert predictions[..t + 1][..t] == predictions[..t];
  }

  /** The bare numbers among the route entries of an interval: what the chart counts and the summary does not. */
  function FlatNumbers(routes: seq<Value>): seq<real>
  {
    if routes == [] then []
    else FlatNumbers(routes[..|routes| - 1]) + (if routes[|routes| - 1].Num? then [routes[|routes| - 1].x] else [])
  }

  function FlatPool(predictions: seq<Value>): seq<real>
  {
    if predictions == [] then []
    else
      var last := predictions[|predictions| - 1];
      FlatPool(predictions[..|predictions| - 1]) + (if last.Arr? then FlatNumbers(last.items) else [])
  }

  lemma {:induction false} RoutesSplit(routes: seq<Value>, parseFloat: string -> Option<real>)
    ensures multiset(PredictionChart.RoutesSamples(routes, parseFloat))
         == multiset(NestedRoutesSamples(routes, parseFloat)) + multiset(FlatNumbers(routes))
  {
    if routes != [] {
      RoutesSplit(routes[..|routes| - 1], parseFloat);
    }
  }

  /**
   * The chart's pool is the summary's pool plus the bare numeric route entries:
   * the two passes agree on every leaf of a per-route array.
   */
  lemma {:induction false} PoolsSplit(predictions: seq<Value>, parseFloat: string -> Option<real>)
    ensures multiset(PredictionChart.Pooled(predictions, parseFloat))
         == multiset(NestedPool(predictions, parseFloat)) + multiset(FlatPool(predictions))
  {
    if predictions != [] {
      var last := predictions[|predictions| - 1];
      PoolsSplit(predictions[..|predictions| - 1], parseFloat);
      if last.Arr? {
        RoutesSplit(last.items, parseFloat);
      }
    }
  }

  /** What the summary shows: min, max and avg of the collected values, the condition and the advice. */
  datatype Summary = Summary(min: real, max: real, avg: real, condition: Level, advice: string)

  /** The summary of the collected values; none at all when nothing was collected. */
  function SummaryOf(values: seq<real>): (r: Option<Summary>)
    ensures r.None? <==> values == []
    ensures r.Some? ==>
              && r.value.min == Least(values) && r.value.max == Greatest(values)
              && r.value.avg == Sum(values) / (|values| as real)
              && r.value.min <= r.value.avg <= r.value.max
              && InBand(r.value.condition, r.value.avg)
              && (GreatTimeToTravel(r.value.condition) <==> r.value.avg < 0.0)
              && r.value.advice == Recommendation(r.value.condition)
  {
    if values == [] then None
    else
      var sorted := SortAscending(values);
      SortedEnds(values);
      var avg := Mean(values);
      RecommendationIffNegative(avg);
      var condition := GetTrafficCondition(avg);
      Some(Summary(sorted[0], sorted[|sorted| - 1], avg, condition, Recommendation(condition)))
  }

  /** One route entry of the summary's pass: its leaves when it is an array, nothing otherwise. */
  method CollectRoute(route: Value, parseFloat: string -> Option<real>, allValues: seq<real>)
    returns (next: seq<real>)
    ensures next == allValues + NestedRouteSamples(route, parseFloat)
  {
    if route.Arr? {
      next := CollectLeaves(route.items, parseFloat, allValues);
    } else {
      next := allValues;
      assert allValues + NestedRouteSamples(route, parseFloat) == allValues;
    }
  }

  /** The `timestep.forEach` of the summary's pass: only per-route arrays are entered. */
  method CollectInterval(interval: Value, parseFloat: string -> Option<real>, allValues: seq<real>)
    returns (next: seq<real>)
    ensures next == allValues + NestedIntervalSamples(interval, parseFloat)
  {
    next := allValues;
    if interval.Arr? {
      var routes := interval.items;
      for r := 0 to |routes|
        invariant next == allValues + NestedRoutesSamples(routes[..r], parseFloat)
      {
        NestedRoutesSamplesStep(routes, parseFloat, r);
        next := CollectRoute(routes[r], parseFloat, next);
      }
      assert routes[..|routes|] == routes;
    }
  }

  /** The component: null (no summary) for an empty forecast or when nothing was collected. */
  method Summarize(predictions: seq<Value>, parseFloat: string -> Option<real>) returns (r: Option<Summary>)
    ensures r == SummaryOf(NestedPool(predictions, parseFloat))
    ensures r.None? <==> NestedPool(predictions, parseFloat) == []
  {
    if |predictions| == 0 {
      return None;
    }
    var allValues: seq<real> := [];
    for t := 0 to |predictions|
      invariant allValues == NestedPool(predictions[..t], parseFloat)
    {
      NestedPoolStep(predictions, parseFloat, t);
      allValues := CollectInterval(predictions[t], parseFloat, allValues);
    }
    assert predictions[..|predictions| ] == predictions;
    if |allValues| == 0 {
      return None;
    }
    var sorted := SortAscending(allValues);
    var min := sorted[0];
    var max := sorted[|sorted| - 1];
    var avg := Sum(allValues) / |allValues| as real;
    var condition := GetTrafficCondition(avg);
    r := Some(Summary(min, max, avg, condition, Recommendation(condition)));
  }
}
