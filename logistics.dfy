/** The logistics coordinator's tools: planning the pickups and shipping of a job,
    comparing shipping methods, counting shipment statuses and timing the
    consolidation. The stored plans are the field of a LogisticsCoordinator; the
    tracking table is never changed and is a parameter. "Today" is a parameter (a day
    ordinal), standing for the date part of the clock. */
module Logistics {
  import opened Wrappers
  import opened Text
  import opened Sets
  import opened ShippingData

  // ---------------------------------------------------------------------------
  // plan_logistics

  /** What the plan_logistics loop has built so far: the pickup schedule and the
      running distance. */
  datatype Progress = Progress(schedule: map<string, Pickup>, totalDistance: int)

  /** One turn of the loop: the maker's pickup is `len(schedule) + 1` days out, its
      distance 500 miles plus 200 per entry already scheduled; a maker already in the
      schedule has its entry replaced. */
  function AddPickup(p: Progress, makerId: string, today: int): Progress {
    var n := |p.schedule|;
    Progress(p.schedule[makerId := Pickup(today + n + 1, "Location for " + makerId, 500 + 200 * n)],
             p.totalDistance + 500 + 200 * n)
  }

  /** The loop of plan_logistics over the maker ids, in order. */
  function Schedule(makerIds: seq<string>, today: int): Progress
    decreases |makerIds|
  {
    if makerIds == [] then Progress(map[], 0)
    else AddPickup(Schedule(makerIds[..|makerIds| - 1], today), makerIds[|makerIds| - 1], today)
  }

  /** The loop's turn for position i extends the schedule of the ids before it. */
  lemma ScheduleStep(makerIds: seq<string>, i: nat, today: int)
    requires i < |makerIds|
    ensures Schedule(makerIds[..i + 1], today) == AddPickup(Schedule(makerIds[..i], today), makerIds[i], today)
  {
    assert makerIds[..i + 1][..i] == makerIds[..i];
  }

  /** A maker not yet scheduled adds one entry and leaves the others alone. */
  lemma AddPickupNew(p: Progress, makerId: string, today: int)
    requires makerId !in p.schedule
    ensures var q := AddPickup(p, makerId, today);
            |q.schedule| == |p.schedule| + 1 &&
            q.schedule[makerId] == Pickup(today + |p.schedule| + 1, "Location for " + makerId, 500 + 200 * |p.schedule|) &&
            (forall m :: m in p.schedule ==> m in q.schedule && q.schedule[m] == p.schedule[m]) &&
            q.totalDistance == p.totalDistance + 500 + 200 * |p.schedule|
  {
  }

  /** Whatever the ids: the schedule has one entry per distinct id, each pickup lies
      between tomorrow and |makerIds| days out, its distance matches its offset, and
      every turn adds at least 500 miles to the total. */
  lemma {:induction false} ScheduleShape(makerIds: seq<string>, today: int)
    ensures var p := Schedule(makerIds, today);
            (forall m :: m in p.schedule <==> m in makerIds) &&
            |p.schedule| <= |makerIds| &&
            p.totalDistance >= 500 * |makerIds| &&
            (forall m :: m in p.schedule ==>
               today + 1 <= p.schedule[m].date <= today + |makerIds| &&
               p.schedule[m].distanceMiles == 500 + 200 * (p.schedule[m].date - today - 1) &&
               p.schedule[m].location == "Location for " + m)
    decreases |makerIds|
  {
    if makerIds != [] {
      var front := makerIds[..|makerIds| - 1];
      var x := makerIds[|makerIds| - 1];
      ScheduleShape(front, today);
      assert makerIds == front + [x];
      var p := Schedule(front, today);
      forall m ensures m in makerIds <==> m in front || m == x {
      }
      assert |p.schedule[x := Pickup(today + |p.schedule| + 1, "Location for " + x, 500 + 200 * |p.schedule|)]| <= |p.schedule| + 1;
    }
  }

  /** With distinct ids, the k-th maker (from 0) is picked up k + 1 days out at 500 +
      200·k miles, and the total is 500·n + 100·n·(n − 1). */
  lemma {:induction false} ScheduleDistinct(makerIds: seq<string>, today: int)
    requires forall i, j :: 0 <= i < j < |makerIds| ==> makerIds[i] != makerIds[j]
    ensures var p := Schedule(makerIds, today);
            |p.schedule| == |makerIds| &&
            (forall k :: 0 <= k < |makerIds| ==>
               makerIds[k] in p.schedule &&
               p.schedule[makerIds[k]] == Pickup(today + k + 1, "Location for " + makerIds[k], 500 + 200 * k)) &&
            p.totalDistance == 500 * |makerIds| + 100 * |makerIds| * (|makerIds| - 1)
    decreases |makerIds|
  {
    if makerIds != [] {
      var n := |makerIds|;
      var front := makerIds[..n - 1];
      var x := makerIds[n - 1];
      ScheduleDistinct(front, today);
      assert x !in front by {
        forall k | 0 <= k < n - 1 ensures front[k] != x {
          assert front[k] == makerIds[k];
        }
      }
      Unscheduled(front, x, today);
      assert makerIds == front + [x];
      DistinctStep(front, x, Schedule(front, today), today);
    }
  }

  lemma Unscheduled(ids: seq<string>, x: string, today: int)
    requires x !in ids
    ensures x !in Schedule(ids, today).schedule
  {
    ScheduleShape(ids, today);
  }

  /** The step of ScheduleDistinct: a new maker goes after the ones scheduled in order. */
  lemma DistinctStep(front: seq<string>, x: string, p: Progress, today: int)
    requires x !in p.schedule
    requires |p.schedule| == |front|
    requires forall k :: 0 <= k < |front| ==>
               front[k] in p.schedule &&
               p.schedule[front[k]] == Pickup(today + k + 1, "Location for " + front[k], 500 + 200 * k)
    requires p.totalDistance == 500 * |front| + 100 * |front| * (|front| - 1)
    ensures var q := AddPickup(p, x, today);
            var ids := front + [x];
            |q.schedule| == |ids| &&
            (forall k :: 0 <= k < |ids| ==>
               ids[k] in q.schedule &&
               q.schedule[ids[k]] == Pickup(today + k + 1, "Location for " + ids[k], 500 + 200 * k)) &&
            q.totalDistance == 500 * |ids| + 100 * |ids| * (|ids| - 1)
  {
    AddPickupNew(p, x, today);
    var ids := front + [x];
    forall k | 0 <= k < |front| ensures ids[k] == front[k] {
    }
    DistinctTotal(|ids|);
  }

  lemma DistinctTotal(n: int)
    requires n >= 1
    ensures 500 * (n - 1) + 100 * (n - 1) * (n - 2) + 500 + 200 * (n - 1) == 500 * n + 100 * n * (n - 1)
  {
  }

  /** A repeated id keeps only its last entry, yet every occurrence is counted in the
      distance: "MAKER_A,MAKER_B,MAKER_A" schedules two pickups, MAKER_A's three days
      out at 900 miles, and totals 2100 miles. */
  lemma ScheduleDuplicate(today: int)
    ensures Schedule(["MAKER_A", "MAKER_B", "MAKER_A"], today) ==
            Progress(map["MAKER_A" := Pickup(today + 3, "Location for MAKER_A", 900),
                         "MAKER_B" := Pickup(today + 2, "Location for MAKER_B", 700)], 2100)
  {
    var ids := ["MAKER_A", "MAKER_B", "MAKER_A"];
    assert ids[..0] == [];
    ScheduleStep(ids, 0, today);
    ScheduleStep(ids, 1, today);
    ScheduleStep(ids, 2, today);
    assert ids[..3] == ids;
    assert "Location for " + "MAKER_A" == "Location for MAKER_A";
    assert "Location for " + "MAKER_B" == "Location for MAKER_B";
    var p1 := Schedule(ids[..1], today);
    assert p1 == Progress(map["MAKER_A" := Pickup(today + 1, "Location for MAKER_A", 500)], 500);
    var p2 := Schedule(ids[..2], today);
    AddPickupNew(p1, "MAKER_B", today);
    assert p2.schedule == map["MAKER_A" := Pickup(today + 1, "Location for MAKER_A", 500),
                              "MAKER_B" := Pickup(today + 2, "Location for MAKER_B", 700)];
  }

  /** Pounds shipped per manufacturer. */
  const WeightPerMakerLbs := 500

  /** The plan plan_logistics stores for a new job. */
  function NewPlan(jobId: string, makerIds: seq<string>, today: int): Plan {
    var center := FindNearestConsolidationCenter(makerIds);
    var p := Schedule(makerIds, today);
    var n := |makerIds|;
    Plan(jobId, "PLANNED", center.name, center.latE4, center.lngE4, p.schedule,
         ShippingCost(n * WeightPerMakerLbs, "ground"), "ground", today + n + 3, p.totalDistance, n + 3, Some(n))
  }

  /** A new plan for n makers: ground shipping of 500 lb each at $225 a maker; n
      manufacturers; delivery n + 3 days out; consolidation at Chicago; a schedule
      entry for exactly the listed ids. (The ids of a comma list are never empty:
      Text.CommaItemsCount.) */
  lemma NewPlanSpec(jobId: string, makerIds: seq<string>, today: int)
    ensures var plan := NewPlan(jobId, makerIds, today);
            var n := |makerIds|;
            plan.numManufacturers == Some(n) &&
            plan.estimatedShippingCostCents == 22500 * n &&
            plan.estimatedDeliveryDays == n + 3 && plan.finalDeliveryDate == today + n + 3 &&
            plan.status == "PLANNED" && plan.shippingMethod == "ground" &&
            plan.consolidationCenter == "Chicago Distribution Center" &&
            (forall m :: m in plan.pickupSchedule <==> m in makerIds) &&
            plan.totalDistanceMiles >= 500 * n
  {
    ShippingCostExact(|makerIds| * WeightPerMakerLbs, "ground");
    ScheduleShape(makerIds, today);
  }

  datatype PlanResult = PlanRetrieved(plan: Plan) | PlanCreated(plan: Plan)

  /** LOGISTICS_PLANS after plan_logistics: a job that already has a plan keeps it; a
      new job gets the plan built from the listed makers; no other plan changes. */
  function AfterPlan(plans: map<string, Plan>, jobId: string, winningMakers: string, today: int): (after: map<string, Plan>)
    ensures after.Keys == plans.Keys + {jobId}
    ensures forall k :: k in plans ==> after[k] == plans[k]
    ensures jobId !in plans ==> after[jobId] == NewPlan(jobId, CommaItems(winningMakers), today)
  {
    if jobId in plans then plans else plans[jobId := NewPlan(jobId, CommaItems(winningMakers), today)]
  }

  /** plan_logistics' answer: the stored plan when there is one, otherwise the new plan. */
  function PlanReply(plans: map<string, Plan>, jobId: string, winningMakers: string, today: int): (r: PlanResult)
    ensures r.PlanRetrieved? <==> jobId in plans
    ensures r.plan == AfterPlan(plans, jobId, winningMakers, today)[jobId]
  {
    if jobId in plans then PlanRetrieved(plans[jobId]) else PlanCreated(NewPlan(jobId, CommaItems(winningMakers), today))
  }

  /** Planning the same job again, with any makers on any day, returns the stored plan
      and changes nothing. */
  lemma PlanTwice(plans: map<string, Plan>, jobId: string, first: string, second: string, today: int, later: int)
    ensures var after := AfterPlan(plans, jobId, first, today);
            AfterPlan(after, jobId, second, later) == after &&
            PlanReply(after, jobId, second, later) == PlanRetrieved(after[jobId]) &&
            PlanReply(after, jobId, second, later).plan == PlanReply(plans, jobId, first, today).plan
  {
  }

  // ---------------------------------------------------------------------------
  // optimize_shipping_costs

  /** `min(alternatives.items(), key=cost)` over ground, express and freight in that
      order: the cheapest, and the first of them on a tie. */
  function Cheapest(ground: int, express: int, freight: int): (r: (string, int))
    ensures r.1 <= ground && r.1 <= express && r.1 <= freight
    ensures r == ("ground", ground) || r == ("express", express) || r == ("freight", freight)
    ensures r.0 == "ground" <==> ground <= express && ground <= freight
    ensures r.0 == "express" <==> express < ground && express <= freight
  {
    if ground <= express && ground <= freight then ("ground", ground)
    else if express <= freight then ("express", express)
    else ("freight", freight)
  }

  datatype CostReport = CostReport(
    jobId: string,
    currentMethod: string,
    currentCostCents: int,
    groundCents: int,
    expressCents: int,
    freightCents: int,
    recommendedMethod: string,
    recommendedCostCents: int,
    potentialSavingsCents: int)

  /** `MissingNumManufacturers` is the KeyError raised for a stored plan without a
      "num_manufacturers" key. */
  datatype OptimizeResult = OptimizeNoPlan(jobId: string) | MissingNumManufacturers(jobId: string) | Optimized(report: CostReport)

  // ---------------------------------------------------------------------------
  // track_shipments

  datatype TrackingReport = TrackingReport(
    jobId: string,
    totalShipments: int,
    inTransit: int,
    pendingPickup: int,
    delivered: int,
    shipments: map<string, Shipment>)

  datatype TrackResult = NoTracking(jobId: string) | Tracked(report: TrackingReport)

  /** The makers whose shipment has the given status. */
  function WithStatus(shipments: map<string, Shipment>, status: string): set<string> {
    set m | m in shipments && shipments[m].status == status
  }

  /** Shipments with three different statuses number no more than all shipments. */
  lemma StatusCountsBound(shipments: map<string, Shipment>, a: string, b: string, c: string)
    requires a != b && b != c && a != c
    ensures |WithStatus(shipments, a)| + |WithStatus(shipments, b)| + |WithStatus(shipments, c)| <= |shipments|
  {
    var A, B, C := WithStatus(shipments, a), WithStatus(shipments, b), WithStatus(shipments, c);
    assert A * B == {} && (A + B) * C == {};
    assert |A + B + C| == |A| + |B| + |C|;
    SubsetCard(A + B + C, shipments.Keys);
  }

  /** track_shipments. */
  function TrackShipments(tracking: map<string, map<string, Shipment>>, jobId: string): (r: TrackResult)
    ensures r.NoTracking? <==> jobId !in tracking
    ensures r.Tracked? ==>
              var s := tracking[jobId];
              r.report.jobId == jobId && r.report.shipments == s &&
              r.report.totalShipments == |s| &&
              r.report.inTransit == |set m | m in s && s[m].status == "IN_TRANSIT"| &&
              r.report.pendingPickup == |set m | m in s && s[m].status == "PENDING_PICKUP"| &&
              r.report.delivered == |set m | m in s && s[m].status == "DELIVERED"| &&
              r.report.inTransit + r.report.pendingPickup + r.report.delivered <= r.report.totalShipments
  {
    if jobId !in tracking then NoTracking(jobId)
    else
      var s := tracking[jobId];
      StatusCountsBound(s, "IN_TRANSIT", "PENDING_PICKUP", "DELIVERED");
      Tracked(TrackingReport(jobId, |s|, |WithStatus(s, "IN_TRANSIT")|, |WithStatus(s, "PENDING_PICKUP")|,
                             |WithStatus(s, "DELIVERED")|, s))
  }

  // ---------------------------------------------------------------------------
  // coordinate_consolidation

  datatype ConsolidationReport = ConsolidationReport(
    jobId: string,
    consolidationCenter: string,
    numShipmentsToConsolidate: int,
    pickupSchedule: map<string, Pickup>,
    consolidationCompleteDate: int,
    finalShipmentDate: int,
    finalDeliveryDate: int)

  /** `EmptySchedule` is the ValueError `max` raises on an empty pickup schedule. */
  datatype CoordinateResult = CoordinateNoPlan(jobId: string) | EmptySchedule(jobId: string) | Coordinated(report: ConsolidationReport)

  /** The dates of a schedule's pickups. */
  function PickupDates(schedule: map<string, Pickup>): set<int> {
    set m | m in schedule :: schedule[m].date
  }

  /** The pickup dates are the dates of the entries, and there is one when there is an
      entry. */
  lemma PickupDatesSpec(schedule: map<string, Pickup>)
    ensures forall d :: d in PickupDates(schedule) <==> exists m :: m in schedule && schedule[m].date == d
    ensures forall m :: m in schedule ==> schedule[m].date in PickupDates(schedule)
    ensures schedule != map[] ==> PickupDates(schedule) != {}
  {
    if schedule != map[] {
      var m := Pick(schedule.Keys);
      assert schedule[m].date in PickupDates(schedule);
    }
  }

  /** The loop of plan_logistics: each maker in turn gets the next pickup, and its
      distance is added to the total. */
  method BuildSchedule(makerIds: seq<string>, today: int) returns (schedule: map<string, Pickup>, totalDistance: int)
    ensures Progress(schedule, totalDistance) == Schedule(makerIds, today)
  {
    schedule := map[];
    totalDistance := 0;
    for i := 0 to |makerIds|
      invariant Progress(schedule, totalDistance) == Schedule(makerIds[..i], today)
    {
      var daysOffset := |schedule| + 1;
      var distance := 500 + |schedule| * 200;
      schedule := schedule[makerIds[i] := Pickup(today + daysOffset, "Location for " + makerIds[i], distance)];
      totalDistance := totalDistance + distance;
      ScheduleStep(makerIds, i, today);
    }
    assert makerIds[..|makerIds|] == makerIds;
  }

  // ---------------------------------------------------------------------------
  // The plan store

  class LogisticsCoordinator {
    var plans: map<string, Plan>

    constructor ()
      ensures plans == LogisticsPlans
    {
      plans := LogisticsPlans;
    }

    method PlanLogistics(jobId: string, winningMakers: string, today: int) returns (r: PlanResult)
      modifies this
      ensures plans == AfterPlan(old(plans), jobId, winningMakers, today)
      ensures r == PlanReply(old(plans), jobId, winningMakers, today)
    {
      var makerIds := CommaItems(winningMakers);
      if jobId in plans {
        return PlanRetrieved(plans[jobId]);
      }
      var center := FindNearestConsolidationCenter(makerIds);
      var schedule, totalDistance := BuildSchedule(makerIds, today);
      var n := |makerIds|;
      var plan := Plan(jobId, "PLANNED", center.name, center.latE4, center.lngE4, schedule,
                       ShippingCost(n * WeightPerMakerLbs, "ground"), "ground", today + n + 3, totalDistance, n + 3, Some(n));
      assert plan == NewPlan(jobId, makerIds, today);
      plans := plans[jobId := plan];
      r := PlanCreated(plan);
    }

    /** optimize_shipping_costs; it reads the store and changes nothing. */
    function OptimizeShippingCosts(jobId: string): (r: OptimizeResult)
      reads this
      ensures r.OptimizeNoPlan? <==> jobId !in plans
      ensures r.MissingNumManufacturers? <==> jobId in plans && plans[jobId].numManufacturers.None?
      ensures r.Optimized? ==>
                var p := plans[jobId];
                var w := p.numManufacturers.value * WeightPerMakerLbs;
                r.report.jobId == jobId && r.report.currentMethod == p.shippingMethod &&
                r.report.currentCostCents == p.estimatedShippingCostCents &&
                r.report.groundCents == ShippingCost(w, "ground") &&
                r.report.expressCents == ShippingCost(w, "express") &&
                r.report.freightCents == ShippingCost(w, "freight") &&
                r.report.recommendedCostCents <= r.report.groundCents &&
                r.report.recommendedCostCents <= r.report.expressCents &&
                r.report.recommendedCostCents <= r.report.freightCents &&
                r.report.recommendedMethod in ShippingRates &&
                r.report.recommendedCostCents == ShippingCost(w, r.report.recommendedMethod) &&
                r.report.potentialSavingsCents ==
                  (if r.report.recommendedMethod == p.shippingMethod then 0
                   else p.estimatedShippingCostCents - r.report.recommendedCostCents)
    {
      match GetLogisticsPlan(plans, jobId)
      case None => OptimizeNoPlan(jobId)
      case Some(p) =>
        if p.numManufacturers.None? then MissingNumManufacturers(jobId)
        else
          var w := p.numManufacturers.value * WeightPerMakerLbs;
          var g, e, f := ShippingCost(w, "ground"), ShippingCost(w, "express"), ShippingCost(w, "freight");
          var best := Cheapest(g, e, f);
          var savings := if best.0 != p.shippingMethod then p.estimatedShippingCostCents - best.1 else 0;
          Optimized(CostReport(jobId, p.shippingMethod, p.estimatedShippingCostCents, g, e, f, best.0, best.1, savings))
    }

    /** coordinate_consolidation; it reads the store and changes nothing. */
    function CoordinateConsolidation(jobId: string): (r: CoordinateResult)
      reads this
      ensures r.CoordinateNoPlan? <==> jobId !in plans
      ensures r.EmptySchedule? <==> jobId in plans && plans[jobId].pickupSchedule == map[]
      ensures r.Coordinated? ==>
                var p := plans[jobId];
                var s := p.pickupSchedule;
                r.report.jobId == jobId && r.report.consolidationCenter == p.consolidationCenter &&
                r.report.numShipmentsToConsolidate == |s| && r.report.pickupSchedule == s &&
                (exists m :: m in s && s[m].date == r.report.consolidationCompleteDate) &&
                (forall m :: m in s ==> s[m].date <= r.report.consolidationCompleteDate) &&
                r.report.finalShipmentDate == r.report.consolidationCompleteDate + 1 &&
                r.report.finalDeliveryDate == p.finalDeliveryDate
    {
      match GetLogisticsPlan(plans, jobId)
      case None => CoordinateNoPlan(jobId)
      case Some(p) =>
        var s := p.pickupSchedule;
        if s == map[] then EmptySchedule(jobId)
        else
          PickupDatesSpec(s);
          var latest := MaxOf(PickupDates(s));
          Coordinated(ConsolidationReport(jobId, p.consolidationCenter, |s|, s, latest, latest + 1, p.finalDeliveryDate))
    }
  }

  /** With a manufacturer count that is not negative, ground is recommended, and a
      plan already shipping by ground saves nothing. */
  lemma OptimizeRecommendsGround(c: LogisticsCoordinator, jobId: string)
    requires jobId in c.plans && c.plans[jobId].numManufacturers.Some?
    requires c.plans[jobId].numManufacturers.value >= 0
    ensures c.OptimizeShippingCosts(jobId).Optimized?
    ensures c.OptimizeShippingCosts(jobId).report.recommendedMethod == "ground"
    ensures c.plans[jobId].shippingMethod == "ground" ==> c.OptimizeShippingCosts(jobId).report.potentialSavingsCents == 0
  {
    var w := c.plans[jobId].numManufacturers.value * WeightPerMakerLbs;
    GroundIsCheapest(w, "express");
    GroundIsCheapest(w, "freight");
  }

  /** A plan made by plan_logistics already uses the cheapest method at its cheapest
      cost: the recommendation repeats it and saves nothing. */
  lemma NewPlanIsCheapest(c: LogisticsCoordinator, jobId: string, winningMakers: string, today: int)
    requires jobId in c.plans && c.plans[jobId] == NewPlan(jobId, CommaItems(winningMakers), today)
    ensures c.OptimizeShippingCosts(jobId).Optimized?
    ensures c.OptimizeShippingCosts(jobId).report.recommendedMethod == c.plans[jobId].shippingMethod
    ensures c.OptimizeShippingCosts(jobId).report.recommendedCostCents == c.plans[jobId].estimatedShippingCostCents
    ensures c.OptimizeShippingCosts(jobId).report.potentialSavingsCents == 0
  {
    OptimizeRecommendsGround(c, jobId);
  }
}
