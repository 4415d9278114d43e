/**
 * Worked forecasts, each stated for every `parseFloat`: none of them depends on
 * how a string parses, because strings appear only where they are skipped.
 */
module Scenarios {
  import opened Json
  import opened Samples
  import Extraction
  import Decimal
  import opened PredictionChart
  import opened PredictionSummary
  import App

  /** An empty forecast: no samples, all-zero statistics, no summary. */
  lemma EmptyForecast(parseFloat: string -> Option<real>)
    ensures Pooled([], parseFloat) == []
    ensures GlobalStatsOf(Pooled([], parseFloat)) == GlobalStats(0.0, 0.0, 0.0, 0.0)
    ensures SummaryOf(NestedPool([], parseFloat)) == None
  {
  }

  lemma FirstLabel()
    ensures Label(0) == "T+1"
  {
    assert Decimal.NatToString(1) == "1";
  }

  lemma ThreeSorted()
    ensures SortAscending([0.2, 0.4, 0.6]) == [0.2, 0.4, 0.6]
  {
    assert [0.2, 0.4, 0.6][1..] == [0.4, 0.6];
    assert [0.4, 0.6][1..] == [0.6];
    assert [0.6][1..] == [];
    assert Insert(0.6, []) == [0.6];
    assert SortAscending([0.6]) == [0.6];
    assert Insert(0.4, [0.6]) == [0.4, 0.6];
    assert SortAscending([0.4, 0.6]) == [0.4, 0.6];
    assert Insert(0.2, [0.4, 0.6]) == [0.2, 0.4, 0.6];
  }

  lemma ThreeExtremes()
    ensures Least([0.2, 0.4, 0.6]) == 0.2 && Greatest([0.2, 0.4, 0.6]) == 0.6
  {
    assert [0.2, 0.4, 0.6][..2] == [0.2, 0.4];
    assert [0.2, 0.4][..1] == [0.2];
  }

  lemma ThreeMean()
    ensures Mean([0.2, 0.4, 0.6]) == 0.4
  {
    assert [0.2, 0.4, 0.6][..2] == [0.2, 0.4];
    assert [0.2, 0.4][..1] == [0.2] && [0.2][..0] == [];
    assert Sum([0.2, 0.4, 0.6]) == 1.2;
  }

  lemma ThreeStats()
    ensures GlobalStatsOf([0.2, 0.4, 0.6]) == GlobalStats(0.4, 0.4, 0.2, 0.6)
  {
    var values := [0.2, 0.4, 0.6];
    assert GlobalStatsOf(values) == GlobalStats(Mean(values), SortAscending(values)[1], SortAscending(values)[0], SortAscending(values)[2]);
    ThreeSorted();
    ThreeMean();
  }

  lemma ThreeSamplesCollected(parseFloat: string -> Option<real>)
    ensures var forecast := [Arr([Arr([Num(0.2), Num(0.4)]), Arr([Num(0.6)])])];
            && IntervalSamples(forecast[0], parseFloat) == [0.2, 0.4, 0.6]
            && Pooled(forecast, parseFloat) == [0.2, 0.4, 0.6]
            && NestedPool(forecast, parseFloat) == [0.2, 0.4, 0.6]
  {
    var forecast := [Arr([Arr([Num(0.2), Num(0.4)]), Arr([Num(0.6)])])];
    var first, second := [Num(0.2), Num(0.4)], [Num(0.6)];
    assert first[..1] == [Num(0.2)] && [Num(0.2)][..0] == [] && second[..0] == [];
    assert Extraction.LeafSamples(first, parseFloat) == [0.2, 0.4];
    assert Extraction.LeafSamples(second, parseFloat) == [0.6];
    var routes := [Arr(first), Arr(second)];
    assert routes[..1] == [Arr(first)] && [Arr(first)][..0] == [];
    assert PredictionChart.RoutesSamples(routes, parseFloat) == [0.2, 0.4, 0.6];
    assert NestedRoutesSamples(routes, parseFloat) == [0.2, 0.4, 0.6];
    assert forecast[..0] == [];
  }

  /** One interval with two per-route arrays, [[0.2, 0.4], [0.6]]: its chart entry. */
  lemma SingleNestedIntervalChart(parseFloat: string -> Option<real>)
    ensures var forecast := [Arr([Arr([Num(0.2), Num(0.4)]), Arr([Num(0.6)])])];
            IntervalPoint(0, forecast[0], parseFloat) == ChartPoint("T+1", 0.2, 0.6, 0.4)
  {
    ThreeSamplesCollected(parseFloat);
    ThreeExtremes();
    ThreeMean();
    FirstLabel();
  }

  /** The same forecast: its global statistics. */
  lemma SingleNestedIntervalStats(parseFloat: string -> Option<real>)
    ensures var forecast := [Arr([Arr([Num(0.2), Num(0.4)]), Arr([Num(0.6)])])];
            GlobalStatsOf(Pooled(forecast, parseFloat)) == GlobalStats(0.4, 0.4, 0.2, 0.6)
  {
    ThreeSamplesCollected(parseFloat);
    ThreeStats();
  }

  /** The same forecast: its summary is Moderate. */
  lemma SingleNestedIntervalSummary(parseFloat: string -> Option<real>)
    ensures var forecast := [Arr([Arr([Num(0.2), Num(0.4)]), Arr([Num(0.6)])])];
            SummaryOf(NestedPool(forecast, parseFloat)) == Some(Summary(0.2, 0.6, 0.4, Moderate, Recommendation(Moderate)))
  {
    ThreeSamplesCollected(parseFloat);
    ThreeSorted();
    ThreeMean();
  }

  lemma NoisyRoutes(parseFloat: string -> Option<real>)
    ensures PredictionChart.RoutesSamples([Num(1.0), Str("NaN"), Null, Num(2.0)], parseFloat) == [1.0, 2.0]
    ensures NestedRoutesSamples([Num(1.0), Str("NaN"), Null, Num(2.0)], parseFloat) == []
  {
    var routes := [Num(1.0), Str("NaN"), Null, Num(2.0)];
    assert routes[..3] == [Num(1.0), Str("NaN"), Null];
    assert [Num(1.0), Str("NaN"), Null][..2] == [Num(1.0), Str("NaN")];
    assert [Num(1.0), Str("NaN")][..1] == [Num(1.0)] && [Num(1.0)][..0] == [];
  }

  lemma TwoSamples()
    ensures Least([1.0, 2.0]) == 1.0 && Greatest([1.0, 2.0]) == 2.0 && Mean([1.0, 2.0]) == 1.5
  {
    assert [1.0, 2.0][..1] == [1.0] && [1.0][..0] == [];
  }

  /**
   * Bare numbers among noise, [1, "NaN", null, 2]: the chart keeps 1 and 2
   * (avg 1.5); the summary, which reads only per-route arrays, shows nothing.
   */
  lemma FlatEntriesWithNoise(parseFloat: string -> Option<real>)
    ensures var forecast := [Arr([Num(1.0), Str("NaN"), Null, Num(2.0)])];
            && IntervalPoint(0, forecast[0], parseFloat) == ChartPoint("T+1", 1.0, 2.0, 1.5)
            && SummaryOf(NestedPool(forecast, parseFloat)) == None
  {
    var forecast := [Arr([Num(1.0), Str("NaN"), Null, Num(2.0)])];
    NoisyRoutes(parseFloat);
    TwoSamples();
    FirstLabel();
    assert forecast[..0] == [];
  }

  lemma TwoSorted()
    ensures SortAscending([2.0, 1.0]) == [1.0, 2.0]
  {
    assert [2.0, 1.0][1..] == [1.0] && [1.0][1..] == [];
    assert SortAscending([1.0]) == [1.0];
  }

  /** With an even count the median index n / 2 picks the upper of the two middle samples. */
  lemma EvenCountMedian(parseFloat: string -> Option<real>)
    ensures GlobalStatsOf(Pooled([Arr([Num(2.0), Num(1.0)])], parseFloat)).median == 2.0
  {
    var forecast := [Arr([Num(2.0), Num(1.0)])];
    assert [Num(2.0), Num(1.0)][..1] == [Num(2.0)] && [Num(2.0)][..0] == [];
    assert forecast[..0] == [];
    assert Pooled(forecast, parseFloat) == [2.0, 1.0];
    TwoSorted();
  }

  /** A leaf that is itself an array is read through its first element, so [[[5]]] contributes 5. */
  lemma DeeperNesting(parseFloat: string -> Option<real>)
    ensures Pooled([Arr([Arr([Arr([Num(5.0)])])])], parseFloat) == [5.0]
  {
  }

  lemma NegativeSamples(parseFloat: string -> Option<real>)
    ensures NestedPool([Arr([Arr([Num(-1.0), Num(-2.0)])])], parseFloat) == [-1.0, -2.0]
  {
    var forecast := [Arr([Arr([Num(-1.0), Num(-2.0)])])];
    var leaves := [Num(-1.0), Num(-2.0)];
    assert leaves[..1] == [Num(-1.0)] && [Num(-1.0)][..0] == [];
    assert Extraction.LeafSamples(leaves, parseFloat) == [-1.0, -2.0];
    assert [Arr(leaves)][..0] == [] && forecast[..0] == [];
  }

  lemma NegativeSorted()
    ensures SortAscending([-1.0, -2.0]) == [-2.0, -1.0]
    ensures Mean([-1.0, -2.0]) == -1.5
  {
    assert [-1.0, -2.0][1..] == [-2.0] && [-2.0][1..] == [];
    assert SortAscending([-2.0]) == [-2.0];
    assert [-1.0, -2.0][..1] == [-1.0] && [-1.0][..0] == [];
  }

  /** An all-negative forecast averaging -1.5 is Very Light, and a great time to travel. */
  lemma VeryLightForecast(parseFloat: string -> Option<real>)
    ensures var forecast := [Arr([Arr([Num(-1.0), Num(-2.0)])])];
            SummaryOf(NestedPool(forecast, parseFloat)) == Some(Summary(-2.0, -1.0, -1.5, VeryLight, "it's a great time to travel!"))
  {
    NegativeSamples(parseFloat);
    NegativeSorted();
  }

  /**
   * A response whose `predictions` is an empty array still counts as a success:
   * the empty forecast is stored with no error, and the render guard then shows
   * neither the summary nor the chart.
   */
  lemma EmptyPredictionsStored()
    ensures var response := App.Received(Obj(map["predictions" := Arr([])]));
            && App.Settle(response) == App.Loaded(Arr([]), None, None)
            && !App.HasRows(App.Settle(response).predictions)
  {
  }
}
