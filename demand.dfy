/** The demand analyzer's tools: market-trend analysis by category, recommendations
    above a demand threshold, and the demand forecast for one product. The tables are
    parameters (the TrendData constants are the program's own). */
module Demand {
  import opened Wrappers
  import opened Collections
  import opened Text
  import opened TrendData

  /** Sort key for `sorted(..., key=demand_score, reverse=True)`: ascending on the
      negated score is descending on the score, and keeps ties in input order. */
  function NegScore(p: Product): int { -p.demandScore }

  function ByScore(products: seq<Product>): seq<Product> {
    SortBy(products, NegScore)
  }

  /** Sorting by score keeps the products and puts them in non-increasing score order. */
  lemma ByScoreSpec(products: seq<Product>)
    ensures multiset(ByScore(products)) == multiset(products)
    ensures |ByScore(products)| == |products|
    ensures forall i, j :: 0 <= i < j < |ByScore(products)| ==>
              ByScore(products)[i].demandScore >= ByScore(products)[j].demandScore
  {
    SortBySpec(products, NegScore);
    var s := ByScore(products);
    forall i, j | 0 <= i < j < |s| ensures s[i].demandScore >= s[j].demandScore {
      assert NegScore(s[i]) <= NegScore(s[j]);
    }
  }

  /** Products with equal scores stay in input order. */
  lemma ByScoreStable(products: seq<Product>, score: int)
    ensures WithKey(ByScore(products), NegScore, -score) == WithKey(products, NegScore, -score)
  {
    SortByStable(products, NegScore, -score);
  }

  /** The first element is a highest-scoring product. */
  lemma ByScoreFirstIsTop(products: seq<Product>)
    requires products != []
    ensures ByScore(products) != []
    ensures ByScore(products)[0] in products
    ensures forall p :: p in products ==> p.demandScore <= ByScore(products)[0].demandScore
  {
    ByScoreSpec(products);
    var s := ByScore(products);
    assert s[0] in multiset(s);
    forall p | p in products ensures p.demandScore <= s[0].demandScore {
      assert p in multiset(s);
      var k :| 0 <= k < |s| && s[k] == p;
    }
  }

  // ---------------------------------------------------------------------------
  // analyze_market_trends

  function SameCategory(category: string): Product -> bool {
    (p: Product) => Lower(p.category) == Lower(category)
  }

  datatype TrendAnalysis = TrendAnalysis(
    totalProductsAnalyzed: int,
    categoryFilter: Option<string>,
    trendingProducts: seq<Product>,
    categoryInsights: Option<MarketSignal>,
    recommendation: Option<Product>)

  /** analyze_market_trends. `categoryFilter` None stands for "All Categories". */
  function AnalyzeMarketTrends(products: seq<Product>, signals: map<string, MarketSignal>, category: string): (r: TrendAnalysis)
    ensures r.totalProductsAnalyzed == |r.trendingProducts|
    ensures r.categoryFilter == if category == [] then None else Some(category)
    ensures r.categoryInsights.Some? <==> category != [] && category in signals
    ensures r.categoryInsights.Some? ==> r.categoryInsights.value == signals[category]
    ensures r.recommendation == if r.trendingProducts == [] then None else Some(r.trendingProducts[0])
  {
    var kept := if category != [] then Filter(products, SameCategory(category)) else products;
    var sorted := ByScore(kept);
    var insight := if category != [] && category in signals then Some(signals[category]) else None;
    TrendAnalysis(|sorted|, if category == [] then None else Some(category), sorted, insight,
                  if sorted == [] then None else Some(sorted[0]))
  }

  /** Which products are analyzed: all of them for an empty category, and otherwise
      exactly those whose category matches ignoring case; highest score first, and the
      recommendation scores at least as high as every product analyzed. */
  lemma AnalyzeSpec(products: seq<Product>, signals: map<string, MarketSignal>, category: string)
    ensures var r := AnalyzeMarketTrends(products, signals, category);
            (category == [] ==> multiset(r.trendingProducts) == multiset(products)) &&
            (category != [] ==> forall p :: p in r.trendingProducts <==> p in products && Lower(p.category) == Lower(category)) &&
            (category != [] ==>
               forall p :: multiset(r.trendingProducts)[p] == (if Lower(p.category) == Lower(category) then multiset(products)[p] else 0)) &&
            (forall i, j :: 0 <= i < j < |r.trendingProducts| ==>
               r.trendingProducts[i].demandScore >= r.trendingProducts[j].demandScore) &&
            (r.recommendation.Some? ==> forall p :: p in r.trendingProducts ==> p.demandScore <= r.recommendation.value.demandScore)
  {
    var kept := if category != [] then Filter(products, SameCategory(category)) else products;
    var r := AnalyzeMarketTrends(products, signals, category);
    assert r.trendingProducts == ByScore(kept);
    ByScoreSpec(kept);
    if kept != [] {
      ByScoreFirstIsTop(kept);
    }
    if category != [] {
      CategoryCounts(products, category, ByScore(kept));
    }
  }

  /** Any rearrangement of the category filter holds each matching product as often as
      the table does, and nothing else. */
  lemma CategoryCounts(products: seq<Product>, category: string, s: seq<Product>)
    requires multiset(s) == multiset(Filter(products, SameCategory(category)))
    ensures forall p :: multiset(s)[p] == (if Lower(p.category) == Lower(category) then multiset(products)[p] else 0)
    ensures forall p :: p in s <==> p in products && Lower(p.category) == Lower(category)
  {
    FilterCountAll(products, SameCategory(category));
    forall p ensures p in s <==> p in products && Lower(p.category) == Lower(category) {
      assert p in s <==> p in multiset(s);
      assert p in products <==> p in multiset(products);
    }
  }

  // ---------------------------------------------------------------------------
  // get_product_recommendations

  /** get_product_recommendations' default `min_demand_score`, 7.0, in tenths. */
  const DefaultMinScore := 70

  datatype Recommendations = Recommendations(
    threshold: int,
    totalRecommendations: int,
    products: seq<Product>,
    topPick: Option<Product>)

  function AtLeast(minScore: int): Product -> bool {
    (p: Product) => p.demandScore >= minScore
  }

  /** get_product_recommendations with the threshold in tenths. */
  function GetProductRecommendations(products: seq<Product>, minScore: int): (r: Recommendations)
    ensures r.threshold == minScore
    ensures r.totalRecommendations == |r.products|
    ensures r.topPick == if r.products == [] then None else Some(r.products[0])
  {
    var sorted := ByScore(Filter(products, AtLeast(minScore)));
    Recommendations(minScore, |sorted|, sorted, if sorted == [] then None else Some(sorted[0]))
  }

  /** The recommendations are exactly the products scoring at least the threshold, in
      non-increasing score order. */
  lemma RecommendationsSpec(products: seq<Product>, minScore: int)
    ensures var r := GetProductRecommendations(products, minScore);
            (forall p :: p in r.products <==> p in products && p.demandScore >= minScore) &&
            (forall p :: multiset(r.products)[p] == (if p.demandScore >= minScore then multiset(products)[p] else 0)) &&
            (forall i, j :: 0 <= i < j < |r.products| ==> r.products[i].demandScore >= r.products[j].demandScore) &&
            (r.topPick.Some? ==> forall p :: p in products && p.demandScore >= minScore ==> p.demandScore <= r.topPick.value.demandScore)
  {
    var kept := Filter(products, AtLeast(minScore));
    FilterCountAll(products, AtLeast(minScore));
    ByScoreSpec(kept);
    if kept != [] {
      ByScoreFirstIsTop(kept);
    }
    var s := ByScore(kept);
    forall p ensures p in s <==> p in kept {
      assert p in s <==> p in multiset(s);
    }
  }

  /** Raising the threshold never adds a recommendation. */
  lemma RecommendationsShrink(products: seq<Product>, low: int, high: int)
    requires low <= high
    ensures forall p :: p in GetProductRecommendations(products, high).products ==>
              p in GetProductRecommendations(products, low).products
  {
    RecommendationsSpec(products, low);
    RecommendationsSpec(products, high);
  }

  // ---------------------------------------------------------------------------
  // calculate_demand_forecast

  /** calculate_demand_forecast's default `timeframe`. */
  const DefaultTimeframe := "30_days"

  datatype Advice = Manufacture | Monitor

  datatype ForecastReport = ForecastReport(
    productId: string,
    productName: string,
    currentDemandScore: int,
    timeframe: string,
    forecastedVolume: int,
    confidence: int,
    trend: string,
    recommendation: Advice)

  datatype ForecastResult =
    | ProductNotFound(productId: string)
    | NoForecastData(productId: string)
    | InvalidTimeframe
    | ForecastMade(report: ForecastReport)

  /** The advice for a confidence in hundredths: MANUFACTURE strictly above 0.80. */
  function AdviceFor(confidence: int): (a: Advice)
    ensures a == Manufacture <==> confidence > 80
  {
    if confidence > 80 then Manufacture else Monitor
  }

  /** calculate_demand_forecast. */
  function CalculateDemandForecast(products: seq<Product>, forecasts: map<string, map<string, Forecast>>,
                                   productId: string, timeframe: string): (r: ForecastResult)
    ensures r.ForecastMade? ==>
              r.report.productId == productId && r.report.timeframe == timeframe &&
              r.report.recommendation == AdviceFor(r.report.confidence)
  {
    match GetProductById(products, productId)
    case None => ProductNotFound(productId)
    case Some(product) =>
      if productId !in forecasts then NoForecastData(productId)
      else if timeframe !in forecasts[productId] then InvalidTimeframe
      else
        var f := forecasts[productId][timeframe];
        ForecastMade(ForecastReport(productId, product.name, product.demandScore, timeframe, f.volume,
                                    f.confidence, product.trend, AdviceFor(f.confidence)))
  }

  /** The three errors, in the order they are checked, and the report otherwise. */
  lemma ForecastOutcomes(products: seq<Product>, forecasts: map<string, map<string, Forecast>>,
                         productId: string, timeframe: string)
    ensures var r := CalculateDemandForecast(products, forecasts, productId, timeframe);
            (r.ProductNotFound? <==> forall k :: 0 <= k < |products| ==> products[k].productId != productId) &&
            (r.NoForecastData? <==> !r.ProductNotFound? && productId !in forecasts) &&
            (r.InvalidTimeframe? <==> !r.ProductNotFound? && productId in forecasts && timeframe !in forecasts[productId]) &&
            (r.ForecastMade? ==>
               GetProductById(products, productId).Some? &&
               r.report.productName == GetProductById(products, productId).value.name &&
               r.report.currentDemandScore == GetProductById(products, productId).value.demandScore &&
               r.report.trend == GetProductById(products, productId).value.trend) &&
            (r.ForecastMade? ==>
               r.report.forecastedVolume == forecasts[productId][timeframe].volume &&
               r.report.confidence == forecasts[productId][timeframe].confidence &&
               (r.report.recommendation == Manufacture <==> forecasts[productId][timeframe].confidence > 80))
  {
    GetProductByIdSpec(products, productId);
  }
}
