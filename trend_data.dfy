/** The demand analyzer's tables: trending products, market signals per category and
    demand forecasts per product and timeframe, and the lookup by product id. Demand
    scores are in tenths (9.2 is 92), forecast confidences in hundredths (0.92 is 92). */
module TrendData {
  import opened Wrappers

  datatype Product = Product(
    productId: string,
    name: string,
    category: string,
    demandScore: int,
    trend: string,
    estimatedVolume: int,
    priceRange: string,
    signals: seq<string>)

  datatype MarketSignal = MarketSignal(
    overallTrend: string,
    consumerSentiment: string,
    competitionLevel: string,
    profitMargin: string)

  datatype Forecast = Forecast(volume: int, confidence: int)

  /** get_product_by_id: the first product with the id, or None. */
  function GetProductById(products: seq<Product>, productId: string): (r: Option<Product>)
    ensures r.Some? ==> r.value.productId == productId
  {
    if products == [] then None
    else if products[0].productId == productId then Some(products[0])
    else GetProductById(products[1..], productId)
  }

  /** The lookup fails exactly when no product has the id, and otherwise returns the
      first product that has it. */
  lemma {:induction false} GetProductByIdSpec(products: seq<Product>, productId: string)
    ensures GetProductById(products, productId).None? <==>
              forall k :: 0 <= k < |products| ==> products[k].productId != productId
    ensures GetProductById(products, productId).Some? ==>
              exists k :: 0 <= k < |products| && products[k] == GetProductById(products, productId).value &&
                          forall j :: 0 <= j < k ==> products[j].productId != productId
  {
    if products != [] && products[0].productId != productId {
      GetProductByIdSpec(products[1..], productId);
      assert forall k :: 1 <= k < |products| ==> products[k] == products[1..][k - 1];
      if GetProductById(products, productId).Some? {
        var k :| 0 <= k < |products[1..]| && products[1..][k] == GetProductById(products, productId).value &&
                 forall j :: 0 <= j < k ==> products[1..][j].productId != productId;
        assert products[k + 1] == products[1..][k];
      }
    }
  }

  /** The product at position k is found by its id when no earlier product has it. */
  lemma {:induction false} GetProductByIdAt(products: seq<Product>, k: nat)
    requires k < |products|
    requires forall j :: 0 <= j < k ==> products[j].productId != products[k].productId
    ensures GetProductById(products, products[k].productId) == Some(products[k])
  {
    if k > 0 {
      assert products[1..][k - 1] == products[k];
      GetProductByIdAt(products[1..], k - 1);
    }
  }

  const Prod1 := Product("PROD_001", "Precision Widget Bracket", "Electronics Components", 92, "rising", 5000,
                         "$2.20 - $3.20", ["Reddit mentions +45%", "Amazon searches +32%", "YouTube reviews +28%"])
  const Prod2 := Product("PROD_002", "Adjustable Phone Stand", "Mobile Accessories", 78, "stable", 3500,
                         "$1.80 - $2.50", ["TikTok videos +15%", "Etsy searches +12%"])
  const Prod3 := Product("PROD_003", "Cable Organizer Clip", "Office Supplies", 85, "rising", 7000,
                         "$0.80 - $1.20", ["Pinterest pins +38%", "Twitter mentions +22%"])
  const Prod4 := Product("PROD_004", "Laptop Cooling Stand", "Computer Accessories", 69, "declining", 2000,
                         "$3.50 - $5.00", ["Google Trends -8%", "Amazon reviews stable"])
  const Prod5 := Product("PROD_005", "Custom Key Holder", "Home Organization", 81, "rising", 4500,
                         "$1.50 - $2.20", ["Instagram posts +42%", "Home Depot searches +18%"])

  /** TRENDING_PRODUCTS. */
  const TrendingProducts: seq<Product> := [Prod1, Prod2, Prod3, Prod4, Prod5]

  /** MARKET_SIGNALS. */
  const MarketSignals: map<string, MarketSignal> := map[
    "Electronics Components" := MarketSignal("strong_growth", "positive", "medium", "high"),
    "Mobile Accessories" := MarketSignal("stable", "neutral", "high", "medium"),
    "Office Supplies" := MarketSignal("growth", "positive", "low", "medium")]

  function ForecastTable(v30: int, c30: int, v60: int, c60: int, v90: int, c90: int): map<string, Forecast> {
    map["30_days" := Forecast(v30, c30), "60_days" := Forecast(v60, c60), "90_days" := Forecast(v90, c90)]
  }

  /** DEMAND_FORECASTS. */
  const DemandForecasts: map<string, map<string, Forecast>> := map[
    "PROD_001" := ForecastTable(5000, 92, 8500, 85, 12000, 78),
    "PROD_002" := ForecastTable(3500, 88, 3800, 82, 4000, 75),
    "PROD_003" := ForecastTable(7000, 90, 9500, 83, 11000, 76)]

  /** Product ids are distinct and every demand score lies between 0 and 10. */
  lemma TrendingProductsShape()
    ensures forall i, j :: 0 <= i < j < |TrendingProducts| ==>
              TrendingProducts[i].productId != TrendingProducts[j].productId
    ensures forall k :: 0 <= k < |TrendingProducts| ==> 0 <= TrendingProducts[k].demandScore <= 100
  {
    forall i, j | 0 <= i < j < |TrendingProducts|
      ensures TrendingProducts[i].productId != TrendingProducts[j].productId
    {
      assert TrendingProducts[i].productId[7] != TrendingProducts[j].productId[7];
    }
  }

  /** Every forecast covers the three timeframes, and the further out it looks, the
      more volume and the less confidence. PROD_004 and PROD_005 have no forecast;
      every forecast belongs to a known product. */
  lemma DemandForecastsShape()
    ensures forall p :: p in DemandForecasts ==>
              DemandForecasts[p].Keys == {"30_days", "60_days", "90_days"} &&
              DemandForecasts[p]["30_days"].volume < DemandForecasts[p]["60_days"].volume < DemandForecasts[p]["90_days"].volume &&
              DemandForecasts[p]["30_days"].confidence > DemandForecasts[p]["60_days"].confidence > DemandForecasts[p]["90_days"].confidence
    ensures "PROD_004" !in DemandForecasts && "PROD_005" !in DemandForecasts
    ensures forall p :: p in DemandForecasts ==> GetProductById(TrendingProducts, p).Some?
  {
    assert DemandForecasts.Keys == {"PROD_001", "PROD_002", "PROD_003"};
    TableShape(5000, 92, 8500, 85, 12000, 78);
    TableShape(3500, 88, 3800, 82, 4000, 75);
    TableShape(7000, 90, 9500, 83, 11000, 76);
    TrendingProductsShape();
    GetProductByIdAt(TrendingProducts, 0);
    GetProductByIdAt(TrendingProducts, 1);
    GetProductByIdAt(TrendingProducts, 2);
  }

  /** A forecast table covers the three timeframes with the figures it was given. */
  lemma TableShape(v30: int, c30: int, v60: int, c60: int, v90: int, c90: int)
    ensures var f := ForecastTable(v30, c30, v60, c60, v90, c90);
            f.Keys == {"30_days", "60_days", "90_days"} &&
            f["30_days"] == Forecast(v30, c30) && f["60_days"] == Forecast(v60, c60) && f["90_days"] == Forecast(v90, c90)
  {
    assert "30_days"[0] != "60_days"[0] && "60_days"[0] != "90_days"[0] && "30_days"[0] != "90_days"[0];
  }
}
