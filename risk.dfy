/**
 * The per-cycle risk decision: rain at or above its threshold raises an alert, and
 * rain together with traffic at or above its threshold makes it critical. The
 * decision has no memory from one cycle to the next.
 */
module Risk {

  datatype Level = Safe | WetAlert | Critical

  /** Position of a level in the order Safe < WetAlert < Critical. */
  function Severity(level: Level): nat {
    match level
    case Safe => 0
    case WetAlert => 1
    case Critical => 2
  }

  /** First matching rule: rain and traffic, then rain alone, then safe. */
  function Classify(rainMm: real, rainThreshold: real, vehicles: int, vehicleThreshold: int): (level: Level)
    ensures level == Critical <==> rainMm >= rainThreshold && vehicles >= vehicleThreshold
    ensures level == WetAlert <==> rainMm >= rainThreshold && vehicles < vehicleThreshold
    ensures level == Safe <==> rainMm < rainThreshold
  {
    var rainRisk := rainMm >= rainThreshold;
    var trafficRisk := vehicles >= vehicleThreshold;
    if rainRisk && trafficRisk then Critical
    else if rainRisk then WetAlert
    else Safe
  }

  /** More rain or more vehicles never lowers the level. */
  lemma ClassifyMonotone(rain1: real, rain2: real, vehicles1: int, vehicles2: int, rainThreshold: real, vehicleThreshold: int)
    requires rain1 <= rain2 && vehicles1 <= vehicles2
    ensures Severity(Classify(rain1, rainThreshold, vehicles1, vehicleThreshold))
         <= Severity(Classify(rain2, rainThreshold, vehicles2, vehicleThreshold))
  {
  }
}
