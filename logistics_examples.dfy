/** The logistics tools on the program's own tables. */
module LogisticsExamples {
  import opened Wrappers
  import opened Dates
  import opened ShippingData
  import opened Logistics

  /** The stored KNICK_2025 plan has no manufacturer count, so optimizing its costs
      fails with the KeyError; an unknown job has no plan. */
  lemma OptimizeKnick(c: LogisticsCoordinator)
    requires c.plans == LogisticsPlans
    ensures c.OptimizeShippingCosts("KNICK_2025") == MissingNumManufacturers("KNICK_2025")
    ensures c.OptimizeShippingCosts("WIDGET_2024") == OptimizeNoPlan("WIDGET_2024")
  {
  }

  /** KNICK_2025 has three shipments: one in transit, two waiting for pickup, none
      delivered; WIDGET_2024 has no tracking. */
  lemma TrackKnick()
    ensures TrackShipments(ShipmentTracking, "KNICK_2025").Tracked?
    ensures var r := TrackShipments(ShipmentTracking, "KNICK_2025").report;
            r.totalShipments == 3 && r.inTransit == 1 && r.pendingPickup == 2 && r.delivered == 0
    ensures TrackShipments(ShipmentTracking, "WIDGET_2024") == NoTracking("WIDGET_2024")
  {
    var s := ShipmentTracking["KNICK_2025"];
    assert s.Keys == {"MAKER_A", "MAKER_C", "MAKER_J"};
    assert WithStatus(s, "IN_TRANSIT") == {"MAKER_A"};
    assert WithStatus(s, "PENDING_PICKUP") == {"MAKER_C", "MAKER_J"};
    assert WithStatus(s, "DELIVERED") == {};
  }

  /** KNICK_2025's parts are all in by 2025-11-12 (MAKER_C's pickup), and the final
      shipment leaves on 2025-11-13. */
  lemma CoordinateKnick(c: LogisticsCoordinator)
    requires c.plans == LogisticsPlans
    ensures c.CoordinateConsolidation("KNICK_2025").Coordinated?
    ensures var r := c.CoordinateConsolidation("KNICK_2025").report;
            r.consolidationCompleteDate == Ordinal(2025, 11, 12) &&
            r.finalShipmentDate == Ordinal(2025, 11, 13) &&
            r.numShipmentsToConsolidate == 3 &&
            r.finalDeliveryDate == Ordinal(2025, 11, 15)
  {
    var s := KnickSchedule;
    assert "MAKER_C" in s && s["MAKER_C"].date == Ordinal(2025, 11, 12);
    var r := c.CoordinateConsolidation("KNICK_2025").report;
    assert s.Keys == {"MAKER_A", "MAKER_C", "MAKER_J"};
    assert r.consolidationCompleteDate == Ordinal(2025, 11, 12);
    OrdinalNextDay(2025, 11, 12);
  }
}
