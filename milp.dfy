/**
 * The per-route balance-and-cost calculation (`calculate_milp_solution`):
 * the least shipment that keeps the destination at its safety stock, rounded
 * up to whole vehicle loads; the production the source needs, capped at its
 * capacity; the ending inventories by mass balance; the three-part cost
 * objective; the constraint checks; and the feasibility verdict with its
 * issue list.  It is straight-line arithmetic, so it is modelled as functions
 * over the route's looked-up facts.
 */
module Milp {
  import opened Tables
  import opened RouteFacts
  import opened Schema

  /** `max(0, x)` */
  function Max0(x: real): real {
    if x > 0.0 then x else 0.0
  }

  /** The vehicle capacity of a mode: `TransportModes`' entry, else the default 30. */
  function VehicleCapacity(mode: string): (c: nat)
    ensures c > 0
  {
    if mode in TransportModes then TransportModes[mode] else DefaultVehicleCapacity
  }

  // ---------------------------------------------------------------------------
  // Inputs
  // ---------------------------------------------------------------------------

  /** The route's numbers after coercion: missing values become 0, the multiplier 1, the maxima unbounded. */
  datatype Inputs = Inputs(
    freight: real, handling: real, multiplier: real, prodCost: real, capacity: real,
    sDemand: real, dDemand: real, sOpen: real, dOpen: real,
    sCloseMin: real, sCloseMax: Limit, dCloseMin: real, dCloseMax: Limit)

  function InputsOf(route: RouteData): Inputs {
    Inputs(
      NumOr(route.freightCost, 0.0), NumOr(route.handlingCost, 0.0), NumOr(route.quantityMultiplier, 1.0),
      NumOr(route.productionCost, 0.0), NumOr(route.sourceCapacity, 0.0),
      NumOr(route.sourceDemand, 0.0), NumOr(route.destinationDemand, 0.0),
      NumOr(route.sourceOpeningStock, 0.0), NumOr(route.destinationOpeningStock, 0.0),
      NumOr(route.sourceClosingMin, 0.0), LimitOr(route.sourceClosingMax),
      NumOr(route.destinationClosingMin, 0.0), LimitOr(route.destinationClosingMax))
  }

  /** `x` is the number `v` holds, or `default` when `v` holds no number. */
  predicate NumberOr(v: Fetched, x: real, default: real) {
    (IsNumber(v) ==> v.cell == Num(x)) && (!IsNumber(v) ==> x == default)
  }

  /**
   * Each input is the route's number when one was found and its default
   * otherwise: 1 for the quantity multiplier, no bound for the closing
   * maxima, 0 for everything else.
   */
  lemma InputDefaults(route: RouteData)
    ensures var x := InputsOf(route);
      && NumberOr(route.freightCost, x.freight, 0.0)
      && NumberOr(route.handlingCost, x.handling, 0.0)
      && NumberOr(route.quantityMultiplier, x.multiplier, 1.0)
      && NumberOr(route.productionCost, x.prodCost, 0.0)
      && NumberOr(route.sourceCapacity, x.capacity, 0.0)
      && NumberOr(route.sourceDemand, x.sDemand, 0.0)
      && NumberOr(route.destinationDemand, x.dDemand, 0.0)
      && NumberOr(route.sourceOpeningStock, x.sOpen, 0.0)
      && NumberOr(route.destinationOpeningStock, x.dOpen, 0.0)
      && NumberOr(route.sourceClosingMin, x.sCloseMin, 0.0)
      && NumberOr(route.destinationClosingMin, x.dCloseMin, 0.0)
      && (x.sCloseMax.Finite? <==> IsNumber(route.sourceClosingMax))
      && (x.dCloseMax.Finite? <==> IsNumber(route.destinationClosingMax))
      && (x.sCloseMax.Finite? ==> route.sourceClosingMax.cell == Num(x.sCloseMax.bound))
      && (x.dCloseMax.Finite? ==> route.destinationClosingMax.cell == Num(x.dCloseMax.bound))
  {
  }

  // ---------------------------------------------------------------------------
  // Decision variables
  // ---------------------------------------------------------------------------

  datatype Decisions = Decisions(
    requiredShipment: real, trips: int, shipment: real, excess: real,
    requiredProduction: real, production: real, capacityViolation: real,
    sourceInventory: real, destInventory: real,
    sourceSafetyOk: bool, destSafetyOk: bool, vehicleCapacity: nat)

  /** The safety-stock tolerance of the feasibility check. */
  const Tolerance: real := 0.01

  /** The number of vehicle trips for a shipment: `ceil(required / vc)`, or 0 when nothing is required. */
  function Loads(required: real, vc: nat): int {
    if vc > 0 && required > 0.0 then Ceil(required / vc as real) else 0
  }

  /** The trips cover the requirement with less than one load to spare. */
  lemma {:induction false} LoadsCoverRequirement(required: real, vc: nat)
    requires vc > 0 && required > 0.0
    ensures Loads(required, vc) >= 1
    ensures Loads(required, vc) as real * vc as real >= required
    ensures Loads(required, vc) as real * vc as real - required < vc as real
  {
    var q := vc as real;
    LoadsCover(required, q);
    CeilBounds(required / q);
    assert (Loads(required, vc) - 1) as real * q == Loads(required, vc) as real * q - q;
  }

  /** A larger requirement never needs fewer trips. */
  lemma {:induction false} LoadsMonotone(a: real, b: real, vc: nat)
    requires a <= b
    ensures Loads(a, vc) <= Loads(b, vc)
  {
    if vc > 0 && a > 0.0 {
      var q := vc as real;
      CeilBounds(b / q);
      DivMonotone(a, b, q);
      CeilLeast(a / q, Loads(b, vc));
    }
  }

  /** The shipment: the trips' whole vehicle loads. */
  function Shipped(required: real, vc: nat): real {
    Loads(required, vc) as real * vc as real
  }

  lemma {:induction false} ShippedMonotone(a: real, b: real, vc: nat)
    requires a <= b
    ensures Shipped(a, vc) <= Shipped(b, vc)
  {
    LoadsMonotone(a, b, vc);
    MulMonotone(Loads(a, vc) as real, Loads(b, vc) as real, vc as real);
  }

  /** Steps 1 to 5 of the calculation, for a source that is an IU plant or not. */
  function Decide(x: Inputs, isIu: bool, vc: nat): Decisions {
    var requiredShipment := Max0(x.dCloseMin + x.dDemand - x.dOpen);
    var trips := Loads(requiredShipment, vc);
    var shipment := Shipped(requiredShipment, vc);
    var requiredProduction := if isIu then Max0(x.sCloseMin + shipment + x.sDemand - x.sOpen) else 0.0;
    var capped := isIu && requiredProduction > x.capacity && x.capacity > 0.0;
    var production := if capped then x.capacity else requiredProduction;
    var violation := if capped then requiredProduction - x.capacity else 0.0;
    var sourceInventory := x.sOpen + production - shipment - x.sDemand;
    var destInventory := x.dOpen + shipment - x.dDemand;
    Decisions(
      requiredShipment, trips, shipment, shipment - requiredShipment,
      requiredProduction, production, violation,
      sourceInventory, destInventory,
      sourceInventory >= x.sCloseMin - Tolerance, destInventory >= x.dCloseMin - Tolerance, vc)
  }

  /**
   * The rounding law: the required shipment is the destination's shortfall,
   * never negative; when there is one, the shipment is a whole number of
   * vehicle loads that covers it with less than one load to spare, and
   * otherwise nothing is shipped.
   */
  lemma ShipmentRounding(x: Inputs, isIu: bool, vc: nat)
    ensures var d := Decide(x, isIu, vc);
      && d.requiredShipment == Max0(x.dCloseMin + x.dDemand - x.dOpen)
      && d.requiredShipment >= 0.0
      && (vc > 0 && d.requiredShipment > 0.0 ==>
            && d.trips >= 1
            && d.shipment == d.trips as real * vc as real
            && d.shipment >= d.requiredShipment
            && d.shipment - d.requiredShipment < vc as real)
      && (!(vc > 0 && d.requiredShipment > 0.0) ==> d.trips == 0 && d.shipment == 0.0)
      && d.excess == d.shipment - d.requiredShipment
      && (vc > 0 ==> d.excess >= 0.0)
  {
    var d := Decide(x, isIu, vc);
    if vc > 0 && d.requiredShipment > 0.0 {
      LoadsCoverRequirement(d.requiredShipment, vc);
    }
  }

  /**
   * The production law: a source that is not an IU plant produces nothing; an
   * IU plant produces what keeps it at its safety stock after shipping and
   * its own demand, capped at a positive capacity, the excess reported as the
   * capacity violation.
   */
  lemma ProductionLaw(x: Inputs, isIu: bool, vc: nat)
    ensures var d := Decide(x, isIu, vc);
      && (!isIu ==> d.requiredProduction == 0.0 && d.production == 0.0 && d.capacityViolation == 0.0)
      && (isIu ==> d.requiredProduction == Max0(x.sCloseMin + d.shipment + x.sDemand - x.sOpen))
      && (isIu && d.requiredProduction > x.capacity > 0.0 ==>
            d.production == x.capacity && d.capacityViolation == d.requiredProduction - x.capacity > 0.0)
      && (!(isIu && d.requiredProduction > x.capacity > 0.0) ==>
            d.production == d.requiredProduction && d.capacityViolation == 0.0)
      && d.production >= 0.0
      && d.capacityViolation >= 0.0
  {
  }

  /**
   * Where the stock ends up.  Across the two plants the shipment cancels out:
   * together they end with their opening stock plus production minus both
   * demands.  A destination with a shortfall ends at its safety stock plus
   * the rounding excess of the last vehicle; one without a shortfall gets
   * nothing and keeps its own surplus.  An IU source that has to produce
   * ends at its safety stock, less exactly the capacity violation when the
   * cap binds.
   */
  lemma {:induction false} EndingInventories(x: Inputs, isIu: bool, vc: nat)
    ensures var d := Decide(x, isIu, vc);
      && d.sourceInventory + d.destInventory == x.sOpen + x.dOpen + d.production - x.sDemand - x.dDemand
      && (d.requiredShipment > 0.0 ==> d.destInventory == x.dCloseMin + d.excess)
      && (d.requiredShipment == 0.0 ==> d.shipment == 0.0 && d.destInventory == x.dOpen - x.dDemand >= x.dCloseMin)
      && (isIu && d.requiredProduction > 0.0 ==> d.sourceInventory == x.sCloseMin - d.capacityViolation)
      && (isIu && d.requiredProduction == 0.0 ==> d.production == 0.0 && d.sourceInventory >= x.sCloseMin)
  {
    var d := Decide(x, isIu, vc);
    assert d.requiredShipment == 0.0 ==> d.trips == 0;
  }

  /** The shipment covers the destination's shortfall, so its safety stock is always met. */
  lemma {:induction false} DestinationSafetyStockMet(x: Inputs, isIu: bool, vc: nat)
    requires vc > 0
    ensures var d := Decide(x, isIu, vc);
      d.destInventory >= x.dCloseMin && d.destSafetyOk
  {
    ShipmentRounding(x, isIu, vc);
  }

  /** An IU source that needs no more than it may produce ends at or above its safety stock. */
  lemma {:induction false} SourceSafetyStockMet(x: Inputs, vc: nat)
    requires Decide(x, true, vc).capacityViolation == 0.0
    ensures var d := Decide(x, true, vc);
      d.sourceInventory >= x.sCloseMin && d.sourceSafetyOk
  {
    ProductionLaw(x, true, vc);
  }

  /** More destination demand never means a smaller required shipment, fewer trips or a smaller shipment. */
  lemma {:induction false} ShipmentMonotone(x: Inputs, isIu: bool, vc: nat, more: real)
    requires more >= x.dDemand
    ensures var a := Decide(x, isIu, vc);
      var b := Decide(x.(dDemand := more), isIu, vc);
      && a.requiredShipment <= b.requiredShipment
      && a.trips <= b.trips
      && a.shipment <= b.shipment
  {
    var a := Decide(x, isIu, vc);
    var b := Decide(x.(dDemand := more), isIu, vc);
    assert a.requiredShipment <= b.requiredShipment;
    LoadsMonotone(a.requiredShipment, b.requiredShipment, vc);
    ShippedMonotone(a.requiredShipment, b.requiredShipment, vc);
  }

  lemma DivMonotone(a: real, b: real, q: real)
    requires a <= b && q > 0.0
    ensures a / q <= b / q
  {
    assert b / q - a / q == (b - a) / q;
  }

  // ---------------------------------------------------------------------------
  // Objective
  // ---------------------------------------------------------------------------

  datatype Objective = Objective(
    productionCost: real, freightTotal: real, handlingTotal: real, transportCost: real,
    holdingRate: real, sourceExcess: real, sourceHolding: real, destExcess: real, destHolding: real,
    holdingCost: real, totalZ: real, fulfilledDemand: real, costPerTon: real,
    transportPerTon: real, deliveredPerTon: real)

  /** The holding rate: a fraction of a positive production cost, else 0. */
  function HoldingRate(prodCost: real): real {
    if prodCost > 0.0 then prodCost * HoldingCostRate else 0.0
  }

  function Cost(x: Inputs, d: Decisions): Objective {
    var productionCost := x.prodCost * d.production;
    var freightTotal := x.freight * d.shipment;
    var handlingTotal := x.handling * d.shipment;
    var transportCost := freightTotal + handlingTotal;
    var rate := HoldingRate(x.prodCost);
    var sourceExcess := Max0(d.sourceInventory - x.sCloseMin);
    var destExcess := Max0(d.destInventory - x.dCloseMin);
    var holdingCost := rate * sourceExcess + rate * destExcess;
    var totalZ := productionCost + transportCost + holdingCost;
    Objective(
      productionCost, freightTotal, handlingTotal, transportCost,
      rate, sourceExcess, rate * sourceExcess, destExcess, rate * destExcess,
      holdingCost, totalZ, x.dDemand, if x.dDemand > 0.0 then totalZ / x.dDemand else 0.0,
      x.freight + x.handling, x.prodCost + x.freight + x.handling)
  }

  /**
   * The objective is production cost times production, the per-ton
   * transport rate times the shipment, and the holding rate times the
   * inventory above safety stock at both nodes; the cost per ton spreads it
   * over the destination demand.
   */
  lemma ObjectiveDecomposition(x: Inputs, d: Decisions)
    ensures var o := Cost(x, d);
      && o.totalZ == x.prodCost * d.production + (x.freight + x.handling) * d.shipment
                     + o.holdingRate * (Max0(d.sourceInventory - x.sCloseMin) + Max0(d.destInventory - x.dCloseMin))
      && o.holdingRate == (if x.prodCost > 0.0 then HoldingCostRate * x.prodCost else 0.0)
      && o.holdingRate >= 0.0
      && o.sourceExcess >= 0.0 && o.destExcess >= 0.0
      && (x.dDemand > 0.0 ==> o.costPerTon * x.dDemand == o.totalZ)
      && (x.dDemand <= 0.0 ==> o.costPerTon == 0.0)
  {
    var o := Cost(x, d);
    assert (x.freight + x.handling) * d.shipment == x.freight * d.shipment + x.handling * d.shipment;
    assert o.holdingRate * (o.sourceExcess + o.destExcess) == o.holdingRate * o.sourceExcess + o.holdingRate * o.destExcess;
  }

  /** With non-negative rates the objective is non-negative. */
  lemma {:induction false} ObjectiveNonNegative(x: Inputs, isIu: bool, vc: nat)
    requires x.prodCost >= 0.0 && x.freight >= 0.0 && x.handling >= 0.0
    ensures Cost(x, Decide(x, isIu, vc)).totalZ >= 0.0
  {
    var d := Decide(x, isIu, vc);
    var o := Cost(x, d);
    ShipmentRounding(x, isIu, vc);
    ProductionLaw(x, isIu, vc);
    MulMonotone(0.0, x.prodCost, d.production);
    MulMonotone(0.0, x.freight, d.shipment);
    MulMonotone(0.0, x.handling, d.shipment);
    MulMonotone(0.0, o.holdingRate, o.sourceExcess);
    MulMonotone(0.0, o.holdingRate, o.destExcess);
  }

  // ---------------------------------------------------------------------------
  // Mass balance, constraint checks and feasibility
  // ---------------------------------------------------------------------------

  /** One node's balance: ending = opening + produced + inbound - outbound - demand. */
  datatype NodeBalance = NodeBalance(
    opening: real, produced: real, inbound: real, outbound: real, demand: real, ending: real)

  function SourceNode(x: Inputs, d: Decisions): NodeBalance {
    NodeBalance(x.sOpen, d.production, 0.0, d.shipment, x.sDemand, d.sourceInventory)
  }

  function DestinationNode(x: Inputs, d: Decisions): NodeBalance {
    NodeBalance(x.dOpen, 0.0, d.shipment, 0.0, x.dDemand, d.destInventory)
  }

  predicate Balanced(n: NodeBalance) {
    n.ending == n.opening + n.produced + n.inbound - n.outbound - n.demand
  }

  /** `min <= inventory <= max`, the maximum ignored when unbounded. */
  predicate WithinBounds(min: real, inventory: real, max: Limit) {
    min <= inventory && (max.Unbounded? || inventory <= max.bound)
  }

  datatype Checks = Checks(
    capacityOk: bool, capacitySlack: real, shipmentBoundOk: bool,
    sourceBoundsOk: bool, destBoundsOk: bool, strategic: seq<StrategicConstraint>)

  function Check(x: Inputs, d: Decisions, strategic: seq<StrategicConstraint>): Checks {
    Checks(
      d.production <= x.capacity, x.capacity - d.production,
      d.shipment <= d.trips as real * d.vehicleCapacity as real,
      WithinBounds(x.sCloseMin, d.sourceInventory, x.sCloseMax),
      WithinBounds(x.dCloseMin, d.destInventory, x.dCloseMax),
      strategic)
  }

  /** The shipment bound always holds, and the destination's lower bound always does. */
  lemma {:induction false} ChecksThatAlwaysHold(x: Inputs, isIu: bool, vc: nat, strategic: seq<StrategicConstraint>)
    requires vc > 0
    ensures var c := Check(x, Decide(x, isIu, vc), strategic);
      && c.shipmentBoundOk
      && (x.dCloseMax.Unbounded? ==> c.destBoundsOk)
      && c.strategic == strategic
  {
    ShipmentRounding(x, isIu, vc);
    DestinationSafetyStockMet(x, isIu, vc);
  }

  datatype Issue =
    | CapacityExceeded(required: real, capacity: real, violation: real)
    | SourceBelowSafetyStock(inventory: real, safetyStock: real)
    | DestinationBelowSafetyStock(inventory: real, safetyStock: real)

  datatype Feasibility = Feasibility(isFeasible: bool, capacityViolation: real, issues: seq<Issue>)

  function Feasible(x: Inputs, d: Decisions): Feasibility {
    var issues :=
      (if d.capacityViolation > 0.0 then [CapacityExceeded(d.requiredProduction, x.capacity, d.capacityViolation)] else [])
      + (if !d.sourceSafetyOk then [SourceBelowSafetyStock(d.sourceInventory, x.sCloseMin)] else [])
      + (if !d.destSafetyOk then [DestinationBelowSafetyStock(d.destInventory, x.dCloseMin)] else []);
    Feasibility(
      d.sourceSafetyOk && d.destSafetyOk && d.capacityViolation == 0.0,
      if d.capacityViolation > 0.0 then d.capacityViolation else 0.0,
      issues)
  }

  function IssueRank(i: Issue): nat {
    match i
    case CapacityExceeded(_, _, _) => 0
    case SourceBelowSafetyStock(_, _) => 1
    case DestinationBelowSafetyStock(_, _) => 2
  }

  predicate StrictlyRanked(issues: seq<Issue>) {
    forall i, j :: 0 <= i < j < |issues| ==> IssueRank(issues[i]) < IssueRank(issues[j])
  }

  /**
   * The verdict: the route is feasible exactly when both safety stocks hold
   * and nothing exceeds capacity, which is exactly when no issue is listed;
   * each issue is present exactly when its condition holds, in the order
   * capacity, source, destination.
   */
  lemma {:induction false} FeasibilityVerdict(x: Inputs, isIu: bool, vc: nat)
    ensures var d := Decide(x, isIu, vc);
      var f := Feasible(x, d);
      && (f.isFeasible <==> d.sourceSafetyOk && d.destSafetyOk && d.capacityViolation == 0.0)
      && (f.isFeasible <==> f.issues == [])
      && (CapacityExceeded(d.requiredProduction, x.capacity, d.capacityViolation) in f.issues <==> d.capacityViolation > 0.0)
      && (SourceBelowSafetyStock(d.sourceInventory, x.sCloseMin) in f.issues <==> !d.sourceSafetyOk)
      && (DestinationBelowSafetyStock(d.destInventory, x.dCloseMin) in f.issues <==> !d.destSafetyOk)
      && |f.issues| <= 3
      && StrictlyRanked(f.issues)
      && f.capacityViolation == d.capacityViolation
  {
    ProductionLaw(x, isIu, vc);
  }

  /**
   * The verdict reads neither closing-stock maximum: changing them changes
   * neither the decisions nor the feasibility, only the bound checks.
   */
  lemma FeasibilityIgnoresMaxima(x: Inputs, isIu: bool, vc: nat, sMax: Limit, dMax: Limit)
    ensures var y := x.(sCloseMax := sMax, dCloseMax := dMax);
      && Decide(y, isIu, vc) == Decide(x, isIu, vc)
      && Feasible(y, Decide(y, isIu, vc)) == Feasible(x, Decide(x, isIu, vc))
  {
  }

  // ---------------------------------------------------------------------------
  // The solution
  // ---------------------------------------------------------------------------

  datatype Solution = Solution(
    route: RouteData, decisions: Decisions, objective: Objective,
    sourceNode: NodeBalance, destinationNode: NodeBalance, checks: Checks, feasibility: Feasibility)

  /** The source counts as an IU plant only when its looked-up type is the string "IU". */
  predicate SourceIsIu(route: RouteData) {
    route.sourceType == Found(Str("IU"))
  }

  /** `calculate_milp_solution` on the facts of one route. */
  function Solve(route: RouteData): Solution {
    var x := InputsOf(route);
    var d := Decide(x, SourceIsIu(route), VehicleCapacity(route.mode));
    Solution(route, d, Cost(x, d), SourceNode(x, d), DestinationNode(x, d),
             Check(x, d, route.constraints), Feasible(x, d))
  }

  /** Every solution the calculator reports balances, meets the destination's safety stock and ships whole loads. */
  lemma {:induction false} SolutionInvariants(route: RouteData)
    ensures var s := Solve(route);
      && Balanced(s.sourceNode) && Balanced(s.destinationNode)
      && s.decisions.destSafetyOk
      && s.checks.shipmentBoundOk
      && s.decisions.shipment == s.decisions.trips as real * VehicleCapacity(route.mode) as real
      && s.decisions.shipment >= s.decisions.requiredShipment
      && (s.feasibility.isFeasible <==> s.feasibility.issues == [])
      && (s.feasibility.isFeasible <==> s.decisions.sourceSafetyOk && s.decisions.capacityViolation == 0.0)
  {
    var x := InputsOf(route);
    var iu := SourceIsIu(route);
    var vc := VehicleCapacity(route.mode);
    ShipmentRounding(x, iu, vc);
    DestinationSafetyStockMet(x, iu, vc);
    FeasibilityVerdict(x, iu, vc);
  }

  /**
   * The reported node balances conserve stock across the network: what
   * leaves the source is what reaches the destination, so the two ending
   * stocks add up to both opening stocks plus production minus both demands.
   */
  lemma {:induction false} NetworkConservation(route: RouteData)
    ensures var s := Solve(route);
      var x := InputsOf(route);
      && s.sourceNode.outbound == s.destinationNode.inbound == s.decisions.shipment
      && s.sourceNode.ending + s.destinationNode.ending == x.sOpen + x.dOpen + s.decisions.production - x.sDemand - x.dDemand
      && s.sourceNode.ending == s.decisions.sourceInventory && s.destinationNode.ending == s.decisions.destInventory
  {
    EndingInventories(InputsOf(route), SourceIsIu(route), VehicleCapacity(route.mode));
  }

  /** A mode outside `TransportModes` is planned with 30-ton loads, whatever the parser's reference table says. */
  lemma UnknownModeCapacity(mode: string)
    requires mode !in TransportModes
    ensures VehicleCapacity(mode) == 30
  {
  }

  /** Sea transport is planned with 30-ton loads even though the parser's reference table gives it 10000. */
  lemma SeaCapacityDisagrees()
    ensures "T3" in ParserTransportInfo && ParserTransportInfo["T3"].vehicleCapacity == 10000
    ensures VehicleCapacity("T3") == 30
  {
  }

  /**
   * A missing capacity reads as 0, which switches the cap off: an IU source
   * then produces all it needs and no capacity issue is raised, although the
   * capacity check reports the production as over capacity.
   */
  lemma {:induction false} MissingCapacityMeansNoCap(route: RouteData)
    requires SourceIsIu(route) && !IsNumber(route.sourceCapacity)
    ensures var s := Solve(route);
      && s.decisions.production == s.decisions.requiredProduction
      && s.decisions.capacityViolation == 0.0
      && (forall i :: i in s.feasibility.issues ==> !i.CapacityExceeded?)
      && (s.decisions.production > 0.0 ==> !s.checks.capacityOk)
  {
    var x := InputsOf(route);
    assert x.capacity == 0.0;
    FeasibilityVerdict(x, true, VehicleCapacity(route.mode));
  }

  // ---------------------------------------------------------------------------
  // Worked examples
  // ---------------------------------------------------------------------------

  /**
   * An IU plant with opening stock 100, safety stock 50, no own demand,
   * capacity 1000 and production cost 10 serves a plant with opening stock
   * 20, safety stock 30 and demand 200 by road (30-ton trucks, freight 5,
   * handling 1).
   */
  function RoadExample(capacity: real): Inputs {
    Inputs(5.0, 1.0, 1.0, 10.0, capacity, 0.0, 200.0, 100.0, 20.0, 50.0, Unbounded, 30.0, Unbounded)
  }

  /** With capacity 1000: 7 trucks carry 210 tons, 160 tons are produced, both plants end at their safety stock. */
  lemma RoadExampleFeasible()
    ensures var x := RoadExample(1000.0);
      var d := Decide(x, true, VehicleCapacity("T1"));
      && d.requiredShipment == 210.0 && d.trips == 7 && d.shipment == 210.0 && d.excess == 0.0
      && d.requiredProduction == 160.0 && d.production == 160.0 && d.capacityViolation == 0.0
      && d.sourceInventory == 50.0 && d.destInventory == 30.0
      && Feasible(x, d) == Feasibility(true, 0.0, [])
  {
    assert VehicleCapacity("T1") == 30;
    assert 210.0 / 30.0 == 7.0;
    assert Ceil(7.0) == 7;
  }

  /**
   * With capacity 100 the same route needs 60 tons more than the plant may
   * make: production is capped at 100, the source falls below its safety
   * stock, and both issues are reported, capacity first.
   */
  lemma RoadExampleOverCapacity()
    ensures var x := RoadExample(100.0);
      var d := Decide(x, true, VehicleCapacity("T1"));
      && d.requiredProduction == 160.0 && d.production == 100.0 && d.capacityViolation == 60.0
      && d.sourceInventory == -10.0 && d.destInventory == 30.0
      && Feasible(x, d) == Feasibility(false, 60.0,
           [CapacityExceeded(160.0, 100.0, 60.0), SourceBelowSafetyStock(-10.0, 50.0)])
  {
    assert VehicleCapacity("T1") == 30;
    assert 210.0 / 30.0 == 7.0;
    assert Ceil(7.0) == 7;
  }
}
