/** The demand tools on the program's own tables. */
module DemandExamples {
  import opened Wrappers
  import opened Collections
  import opened TrendData
  import opened Demand

  /** Forecasting: PROD_001 over 30 days is worth manufacturing, over 90 days (0.78)
      only monitoring; PROD_004 has no forecast and PROD_999 is unknown. */
  lemma ForecastExamples()
    ensures CalculateDemandForecast(TrendingProducts, DemandForecasts, "PROD_001", DefaultTimeframe) ==
            ForecastMade(ForecastReport("PROD_001", "Precision Widget Bracket", 92, "30_days", 5000, 92, "rising", Manufacture))
    ensures CalculateDemandForecast(TrendingProducts, DemandForecasts, "PROD_001", "90_days").report.recommendation == Monitor
    ensures CalculateDemandForecast(TrendingProducts, DemandForecasts, "PROD_001", "45_days") == InvalidTimeframe
    ensures CalculateDemandForecast(TrendingProducts, DemandForecasts, "PROD_004", "30_days") == NoForecastData("PROD_004")
    ensures CalculateDemandForecast(TrendingProducts, DemandForecasts, "PROD_999", "30_days") == ProductNotFound("PROD_999")
  {
    TrendingProductsShape();
    GetProductByIdAt(TrendingProducts, 0);
    GetProductByIdAt(TrendingProducts, 3);
    GetProductByIdSpec(TrendingProducts, "PROD_999");
    assert forall k :: 0 <= k < |TrendingProducts| ==> TrendingProducts[k].productId[7] != '9';
  }

  /** With a threshold of 8.0 the recommendations are PROD_001, PROD_003 and PROD_005,
      and PROD_001 is the top pick. */
  lemma RecommendationsAtEight()
    ensures GetProductRecommendations(TrendingProducts, 80).products == [Prod1, Prod3, Prod5]
    ensures GetProductRecommendations(TrendingProducts, 80).topPick == Some(Prod1)
  {
    AtLeastEight();
    SortBySorted([Prod1, Prod3, Prod5], NegScore);
  }

  lemma AtLeastEight()
    ensures Filter(TrendingProducts, AtLeast(80)) == [Prod1, Prod3, Prod5]
  {
    var p := AtLeast(80);
    assert TrendingProducts == [Prod1] + ([Prod2] + ([Prod3] + ([Prod4] + ([Prod5] + []))));
    FilterCons(Prod5, [], p);
    FilterCons(Prod4, [Prod5] + [], p);
    FilterCons(Prod3, [Prod4] + ([Prod5] + []), p);
    FilterCons(Prod2, [Prod3] + ([Prod4] + ([Prod5] + [])), p);
    FilterCons(Prod1, [Prod2] + ([Prod3] + ([Prod4] + ([Prod5] + []))), p);
  }

  /** At the default threshold of 7.0 PROD_004 (6.9) is left out, and PROD_002 (7.8)
      comes last. */
  lemma RecommendationsAtDefault()
    ensures GetProductRecommendations(TrendingProducts, DefaultMinScore).products == [Prod1, Prod3, Prod5, Prod2]
  {
    AtLeastSeven();
    SortedAtDefault();
  }

  lemma AtLeastSeven()
    ensures Filter(TrendingProducts, AtLeast(70)) == [Prod1, Prod2, Prod3, Prod5]
  {
    DropFourth(Prod1, Prod2, Prod3, Prod4, Prod5, AtLeast(70));
  }

  /** Filtering five items of which only the fourth fails. */
  lemma DropFourth(a: Product, b: Product, c: Product, d: Product, e: Product, p: Product -> bool)
    requires p(a) && p(b) && p(c) && !p(d) && p(e)
    ensures Filter([a, b, c, d, e], p) == [a, b, c, e]
  {
    assert [a, b, c, d, e] == [a] + ([b] + ([c] + ([d] + ([e] + []))));
    FilterCons(e, [], p);
    FilterCons(d, [e] + [], p);
    FilterCons(c, [d] + ([e] + []), p);
    FilterCons(b, [c] + ([d] + ([e] + [])), p);
    FilterCons(a, [b] + ([c] + ([d] + ([e] + []))), p);
  }

  lemma SortedAtDefault()
    ensures SortBy([Prod1, Prod2, Prod3, Prod5], NegScore) == [Prod1, Prod3, Prod5, Prod2]
  {
    SortFour(Prod1, Prod2, Prod3, Prod5, NegScore);
  }

  /** Sorting four items whose keys rank them first, fourth, second and third. */
  lemma SortFour(a: Product, b: Product, c: Product, e: Product, key: Product -> int)
    requires key(a) <= key(c) <= key(e) < key(b)
    ensures SortBy([a, b, c, e], key) == [a, c, e, b]
  {
    assert [a, b, c, e][1..] == [b, c, e];
    assert [b, c, e][1..] == [c, e];
    assert [c, e][1..] == [e];
    assert [e][1..] == [];
    assert SortBy([e], key) == [e];
    assert SortBy([c, e], key) == [c, e];
    assert [e, b][1..] == [b];
    assert Insert(b, [e], key) == [e, b];
    assert Insert(b, [c, e], key) == [c, e, b];
    assert SortBy([b, c, e], key) == [c, e, b];
  }
}
