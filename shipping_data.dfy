/** The logistics coordinator's tables and helpers: consolidation centers, shipping
    rates, the stored plans, shipment tracking, the plan lookup, the shipping-cost
    rule and the choice of consolidation center. Money is in cents, weights in whole
    pounds, coordinates in ten-thousandths of a degree and dates are day ordinals
    (Dates.Ordinal). */
module ShippingData {
  import opened Wrappers
  import opened Rounding
  import opened Dates

  datatype Center = Center(id: string, name: string, location: string, latE4: int, lngE4: int)

  /** CONSOLIDATION_CENTERS, in order. */
  const ConsolidationCenters: seq<Center> := [
    Center("CDC_CHI", "Chicago Distribution Center", "Chicago, IL", 418781, -876298),
    Center("CDC_ATL", "Atlanta Logistics Hub", "Atlanta, GA", 337490, -843880),
    Center("CDC_DAL", "Dallas Freight Center", "Dallas, TX", 327767, -967970),
    Center("CDC_LA", "Los Angeles Port Hub", "Los Angeles, CA", 340522, -1182437)]

  /** SHIPPING_RATES, in cents per 100 lb. */
  const ShippingRates: map<string, int> := map["ground" := 4500, "express" := 8500, "freight" := 12000]

  /** `SHIPPING_RATES.get(mode, SHIPPING_RATES["ground"])`. */
  function Rate(mode: string): (r: int)
    ensures mode in ShippingRates ==> r == ShippingRates[mode]
    ensures mode !in ShippingRates ==> r == ShippingRates["ground"]
  {
    match Get(ShippingRates, mode)
    case Some(rate) => rate
    case None => ShippingRates["ground"]
  }

  /** calculate_shipping_cost: the rate times the weight in hundreds of pounds,
      rounded to the nearest cent. */
  function ShippingCost(weightLbs: int, mode: string): (c: int)
    ensures 2 * Abs(c * 100 - Rate(mode) * weightLbs) <= 100
  {
    RoundDiv(Rate(mode) * weightLbs, 100)
  }

  /** Every rate is a whole number of dollars, so the cost is exact: the dollar rate
      times the weight, with no rounding. */
  lemma ShippingCostExact(weightLbs: int, mode: string)
    ensures ShippingCost(weightLbs, mode) == (Rate(mode) / 100) * weightLbs
  {
    var k := (Rate(mode) / 100) * weightLbs;
    assert Rate(mode) * weightLbs == k * 100;
    RoundDivExact(k, 100);
  }

  /** The cost is linear in the weight. */
  lemma ShippingCostLinear(a: int, b: int, mode: string)
    ensures ShippingCost(a + b, mode) == ShippingCost(a, mode) + ShippingCost(b, mode)
  {
    ShippingCostExact(a, mode);
    ShippingCostExact(b, mode);
    ShippingCostExact(a + b, mode);
    Distribute(Rate(mode) / 100, a, b);
  }

  lemma Distribute(k: int, a: int, b: int)
    ensures k * (a + b) == k * a + k * b
  {
  }

  /** More weight never costs less. */
  lemma ShippingCostMonotone(a: int, b: int, mode: string)
    requires a <= b
    ensures ShippingCost(a, mode) <= ShippingCost(b, mode)
  {
    RoundDivMonotone(Rate(mode) * a, Rate(mode) * b, 100);
  }

  /** An unknown mode is charged at the ground rate. */
  lemma UnknownMethodIsGround(weightLbs: int, mode: string)
    requires mode !in ShippingRates
    ensures ShippingCost(weightLbs, mode) == ShippingCost(weightLbs, "ground")
  {
  }

  /** Ground is cheaper than express, which is cheaper than freight; so at any weight
      that is not negative, ground costs no more than any mode, and less than
      express or freight once the weight is positive. */
  lemma GroundIsCheapest(weightLbs: int, mode: string)
    requires weightLbs >= 0
    ensures ShippingRates["ground"] < ShippingRates["express"] < ShippingRates["freight"]
    ensures ShippingCost(weightLbs, "ground") <= ShippingCost(weightLbs, mode)
    ensures weightLbs > 0 && mode in {"express", "freight"} ==>
              ShippingCost(weightLbs, "ground") < ShippingCost(weightLbs, mode)
  {
    ShippingCostExact(weightLbs, "ground");
    ShippingCostExact(weightLbs, mode);
    MulLe(45, Rate(mode) / 100, weightLbs);
    if weightLbs > 0 && mode in {"express", "freight"} {
      assert 45 * weightLbs < (Rate(mode) / 100) * weightLbs;
    }
  }

  /** find_nearest_consolidation_center: the first center, Chicago, whatever the
      makers' locations. */
  function FindNearestConsolidationCenter(makerLocations: seq<string>): (c: Center)
    ensures c in ConsolidationCenters
    ensures c.id == "CDC_CHI" && c.name == "Chicago Distribution Center"
  {
    ConsolidationCenters[0]
  }

  /** One pickup_schedule entry. */
  datatype Pickup = Pickup(date: int, location: string, distanceMiles: int)

  /** One LOGISTICS_PLANS entry. `numManufacturers` is None where the stored plan has
      no "num_manufacturers" key. */
  datatype Plan = Plan(
    jobId: string,
    status: string,
    consolidationCenter: string,
    latE4: int,
    lngE4: int,
    pickupSchedule: map<string, Pickup>,
    estimatedShippingCostCents: int,
    shippingMethod: string,
    finalDeliveryDate: int,
    totalDistanceMiles: int,
    estimatedDeliveryDays: int,
    numManufacturers: Option<int>)

  const KnickSchedule: map<string, Pickup> := map[
    "MAKER_C" := Pickup(Ordinal(2025, 11, 12), "Houston, TX", 1080),
    "MAKER_J" := Pickup(Ordinal(2025, 11, 11), "Atlanta, GA", 715),
    "MAKER_A" := Pickup(Ordinal(2025, 11, 2), "Columbus, OH", 355)]

  const KnickPlan := Plan(
    "KNICK_2025", "PLANNED", "Chicago Distribution Center", 418781, -876298, KnickSchedule,
    45000, "ground", Ordinal(2025, 11, 15), 2150, 3, None)

  /** LOGISTICS_PLANS as the program starts. */
  const LogisticsPlans: map<string, Plan> := map["KNICK_2025" := KnickPlan]

  /** get_logistics_plan: the stored plan for the job, or None. */
  function GetLogisticsPlan(plans: map<string, Plan>, jobId: string): (r: Option<Plan>)
    ensures r.Some? <==> jobId in plans
    ensures r.Some? ==> r.value == plans[jobId]
  {
    Get(plans, jobId)
  }

  /** The stored plan: its total distance is the sum of its three pickup distances,
      its consolidation point is the first center, and it has no manufacturer count. */
  lemma LogisticsPlansShape()
    ensures LogisticsPlans.Keys == {"KNICK_2025"}
    ensures KnickSchedule.Keys == {"MAKER_A", "MAKER_C", "MAKER_J"}
    ensures KnickPlan.totalDistanceMiles ==
              KnickSchedule["MAKER_C"].distanceMiles + KnickSchedule["MAKER_J"].distanceMiles +
              KnickSchedule["MAKER_A"].distanceMiles
    ensures KnickPlan.consolidationCenter == ConsolidationCenters[0].name
    ensures KnickPlan.latE4 == ConsolidationCenters[0].latE4 && KnickPlan.lngE4 == ConsolidationCenters[0].lngE4
    ensures KnickPlan.numManufacturers.None?
  {
  }

  /** One SHIPMENT_TRACKING entry. */
  datatype Shipment = Shipment(
    status: string,
    currentLocation: string,
    lastUpdate: Option<string>,
    eta: Option<string>,
    scheduledPickup: Option<string>)

  /** SHIPMENT_TRACKING. */
  const ShipmentTracking: map<string, map<string, Shipment>> := map[
    "KNICK_2025" := map[
      "MAKER_A" := Shipment("IN_TRANSIT", "Indianapolis, IN", Some("2025-11-03 14:30:00"), Some("2025-11-04 10:00:00"), None),
      "MAKER_C" := Shipment("PENDING_PICKUP", "Houston, TX", None, None, Some("2025-11-12 09:00:00")),
      "MAKER_J" := Shipment("PENDING_PICKUP", "Atlanta, GA", None, None, Some("2025-11-11 08:00:00"))]]
}
