/**
 * The facts the optimizer gathers for one route (source plant, destination
 * plant, transport mode, period): first-match lookups into the loaded sheets,
 * the strategic constraints that apply to the route, and the totals derived
 * from the looked-up numbers.
 */
module RouteFacts {
  import opened Tables

  // ---------------------------------------------------------------------------
  // Constants
  // ---------------------------------------------------------------------------

  /** The optimizer's `TRANSPORT_MODES`: vehicle capacity in tons per mode (names left out). */
  const TransportModes: map<string, nat> := map["T1" := 30, "T2" := 3000]

  /** The capacity used for a mode that `TransportModes` does not list. */
  const DefaultVehicleCapacity: nat := 30

  /** Holding cost per ton and period, as a fraction of the production cost. */
  const HoldingCostRate: real := 0.01

  /** `math.ceil` on a real. */
  function Ceil(x: real): int {
    -((-x).Floor)
  }

  lemma CeilBounds(x: real)
    ensures x <= Ceil(x) as real < x + 1.0
  {
    var f := (-x).Floor;
    assert f as real <= -x < f as real + 1.0;
  }

  /** `Ceil` is the least integer at or above `x`. */
  lemma CeilLeast(x: real, n: int)
    requires x <= n as real
    ensures Ceil(x) <= n
  {
    var f := (-x).Floor;
    assert f as real <= -x;
    assert -n as real <= -x;
    assert (-n) <= f;
  }

  // ---------------------------------------------------------------------------
  // Lookups
  // ---------------------------------------------------------------------------

  /** A looked-up value: the "N/A" marker, or the non-NaN cell found. */
  datatype Fetched = NotAvailable | Found(cell: Cell)

  /** `_get_value(df, mask, column)` on a sheet that is loaded. */
  function GetValue(t: Table, conds: seq<Cond>, column: string): Fetched {
    if column !in t.columns then NotAvailable
    else match FirstMatch(t, conds)
      case None => NotAvailable
      case Some(i) => if CellAt(t, i, column) == Missing then NotAvailable else Found(CellAt(t, i, column))
  }

  /** A field of the route: "N/A" unless the sheet is loaded and `GetValue` finds the value there. */
  function Lookup(data: Dataset, sheet: string, conds: seq<Cond>, column: string): Fetched {
    if sheet in data then GetValue(data[sheet], conds, column) else NotAvailable
  }

  lemma FirstMatchUnique(t: Table, conds: seq<Cond>, i: nat, j: nat)
    requires IsFirstMatch(t, conds, i) && IsFirstMatch(t, conds, j)
    ensures i == j
  {
  }

  /**
   * A lookup is "N/A" exactly when the sheet is absent, the column is absent,
   * no row matches or the first matching row holds NaN; otherwise it is the
   * value of the first matching row.
   */
  lemma LookupMeaning(data: Dataset, sheet: string, conds: seq<Cond>, column: string)
    ensures var r := Lookup(data, sheet, conds, column);
      && (r == NotAvailable <==>
            || sheet !in data
            || column !in data[sheet].columns
            || (forall j :: 0 <= j < |data[sheet].rows| ==> !RowMatches(data[sheet], j, conds))
            || exists i :: IsFirstMatch(data[sheet], conds, i) && CellAt(data[sheet], i, column) == Missing)
      && (r.Found? ==>
            && r.cell != Missing
            && forall i :: IsFirstMatch(data[sheet], conds, i) ==> CellAt(data[sheet], i, column) == r.cell)
  {
    if sheet in data && column in data[sheet].columns {
      var t := data[sheet];
      match FirstMatch(t, conds)
      case None =>
      case Some(k) =>
        forall i | IsFirstMatch(t, conds, i) ensures i == k {
          FirstMatchUnique(t, conds, i, k);
        }
    }
  }

  predicate IsNumber(v: Fetched) {
    v.Found? && v.cell.Num?
  }

  /** `_num(val, default)`: the number found, or `default` for "N/A" and for a non-numeric value. */
  function NumOr(v: Fetched, default: real): (x: real)
    ensures IsNumber(v) ==> v.cell == Num(x)
    ensures !IsNumber(v) ==> x == default
  {
    if IsNumber(v) then v.cell.r else default
  }

  /** An upper bound that may be `float('inf')`. */
  datatype Limit = Finite(bound: real) | Unbounded

  /** `_num(val, float('inf'))` */
  function LimitOr(v: Fetched): (l: Limit)
    ensures IsNumber(v) ==> l == Finite(v.cell.r)
    ensures !IsNumber(v) ==> l == Unbounded
  {
    if IsNumber(v) then Finite(v.cell.r) else Unbounded
  }

  // ---------------------------------------------------------------------------
  // Masks
  // ---------------------------------------------------------------------------

  const PeriodColumn := "TIME PERIOD"

  /** The logistics mask: source, destination, mode and period. */
  function LogisticsConds(source: string, destination: string, mode: string, period: int): seq<Cond> {
    [Eq("FROM IU CODE", Str(source)), Eq("TO IUGU CODE", Str(destination)),
     Eq("TRANSPORT CODE", Str(mode)), Eq(PeriodColumn, Num(period as real))]
  }

  /** A plant's rows for one period, the plant named in column `codeColumn`. */
  function PlantPeriodConds(codeColumn: string, plant: string, period: int): seq<Cond> {
    [Eq(codeColumn, Str(plant)), Eq(PeriodColumn, Num(period as real))]
  }

  /** A plant's rows in a sheet keyed by IUGU CODE alone. */
  function PlantConds(plant: string): seq<Cond> {
    [Eq("IUGU CODE", Str(plant))]
  }

  // ---------------------------------------------------------------------------
  // Strategic constraints
  // ---------------------------------------------------------------------------

  /** One strategic constraint as reported for a route. */
  datatype StrategicConstraint = StrategicConstraint(
    boundType: Cell, valueType: Cell, value: real, transportCode: Cell, targetIugu: Cell)

  /** The cells of a Constraints row the route filter reads, with `row.get`'s defaults for absent columns. */
  datatype ConstraintLine = ConstraintLine(
    iu: Cell, period: Cell, transport: Cell, iugu: Cell, boundType: Cell, valueType: Cell, value: Cell)

  function ConstraintLineAt(t: Table, i: nat): ConstraintLine
    requires i < |t.rows|
  {
    ConstraintLine(CellAt(t, i, "IU CODE"), CellAt(t, i, PeriodColumn),
                   CellOr(t, i, "TRANSPORT CODE", Str("")), CellOr(t, i, "IUGU CODE", Str("")),
                   CellOr(t, i, "BOUND TYPEID", Str("")), CellOr(t, i, "VALUE TYPEID", Str("")),
                   CellOr(t, i, "Value", Num(0.0)))
  }

  function ConstraintLines(t: Table): (lines: seq<ConstraintLine>)
    ensures |lines| == |t.rows|
  {
    seq(|t.rows|, i requires 0 <= i < |t.rows| => ConstraintLineAt(t, i))
  }

  /** The row mask: the row's IU CODE is the source and its period is the route's. */
  predicate InRouteMask(line: ConstraintLine, source: string, period: int) {
    Matches(line.iu, Str(source)) && Matches(line.period, Num(period as real))
  }

  /** A code that is NaN or empty applies to every route; otherwise it must equal `code`. */
  predicate GeneralOr(c: Cell, code: string) {
    c == Missing || c == Str("") || c == Str(code)
  }

  predicate AppliesToRoute(line: ConstraintLine, source: string, destination: string, mode: string, period: int) {
    InRouteMask(line, source, period) && GeneralOr(line.transport, mode) && GeneralOr(line.iugu, destination)
  }

  function Blank(c: Cell): Cell {
    if c == Missing then Str("") else c
  }

  /** `float(value) if pd.notna(value) else 0` */
  function ValueOf(c: Cell): real {
    if c.Num? then c.r else 0.0
  }

  function DescribeStrategic(line: ConstraintLine): StrategicConstraint {
    StrategicConstraint(line.boundType, line.valueType, ValueOf(line.value), Blank(line.transport), Blank(line.iugu))
  }

  /** The constraints the route filter appends for the first `n` lines, in row order. */
  function StrategicUpTo(lines: seq<ConstraintLine>, source: string, destination: string, mode: string,
                         period: int, n: nat): seq<StrategicConstraint>
    requires n <= |lines|
  {
    if n == 0 then []
    else
      var prev := StrategicUpTo(lines, source, destination, mode, period, n - 1);
      if AppliesToRoute(lines[n - 1], source, destination, mode, period)
      then prev + [DescribeStrategic(lines[n - 1])]
      else prev
  }

  /** The route's strategic constraints; none when no Constraints sheet is loaded. */
  function StrategicConstraints(data: Dataset, source: string, destination: string, mode: string,
                                period: int): seq<StrategicConstraint>
  {
    if "Constraints" in data then
      var lines := ConstraintLines(data["Constraints"]);
      StrategicUpTo(lines, source, destination, mode, period, |lines|)
    else []
  }

  ghost predicate ListedFor(lines: seq<ConstraintLine>, source: string, destination: string, mode: string,
                            period: int, n: nat, c: StrategicConstraint)
    requires n <= |lines|
  {
    exists i :: 0 <= i < n && AppliesToRoute(lines[i], source, destination, mode, period) &&
      DescribeStrategic(lines[i]) == c
  }

  /** A constraint is listed exactly when some applying row describes it; at most one per row. */
  lemma {:induction false} StrategicUpToMeaning(lines: seq<ConstraintLine>, source: string, destination: string,
                                                mode: string, period: int, n: nat)
    requires n <= |lines|
    ensures var r := StrategicUpTo(lines, source, destination, mode, period, n);
      |r| <= n && forall c :: c in r <==> ListedFor(lines, source, destination, mode, period, n, c)
  {
    if n > 0 {
      StrategicUpToMeaning(lines, source, destination, mode, period, n - 1);
      var prev := StrategicUpTo(lines, source, destination, mode, period, n - 1);
      var keep := AppliesToRoute(lines[n - 1], source, destination, mode, period);
      SnocMembers(prev, StrategicUpTo(lines, source, destination, mode, period, n), keep,
                  DescribeStrategic(lines[n - 1]));
      forall c | ListedFor(lines, source, destination, mode, period, n, c)
        ensures c in prev || (keep && c == DescribeStrategic(lines[n - 1]))
      {
        var i :| 0 <= i < n && AppliesToRoute(lines[i], source, destination, mode, period) &&
          DescribeStrategic(lines[i]) == c;
        if i < n - 1 {
          assert ListedFor(lines, source, destination, mode, period, n - 1, c);
        }
      }
    }
  }

  /**
   * Every constraint listed for a route comes from a row of the source plant
   * and the route's period, and names the route's mode and destination or
   * none ("" for a NaN code).
   */
  lemma StrategicConstraintsApply(data: Dataset, source: string, destination: string, mode: string,
                                  period: int, c: StrategicConstraint)
    requires c in StrategicConstraints(data, source, destination, mode, period)
    ensures "Constraints" in data
    ensures c.transportCode == Str("") || c.transportCode == Str(mode)
    ensures c.targetIugu == Str("") || c.targetIugu == Str(destination)
    ensures exists i ::
      && 0 <= i < |data["Constraints"].rows|
      && CellAt(data["Constraints"], i, "IU CODE") == Str(source)
      && CellAt(data["Constraints"], i, PeriodColumn) == Num(period as real)
  {
    var t := data["Constraints"];
    var lines := ConstraintLines(t);
    StrategicUpToMeaning(lines, source, destination, mode, period, |lines|);
    var i :| 0 <= i < |lines| && AppliesToRoute(lines[i], source, destination, mode, period) &&
      DescribeStrategic(lines[i]) == c;
    assert lines[i] == ConstraintLineAt(t, i);
  }

  // ---------------------------------------------------------------------------
  // Route data
  // ---------------------------------------------------------------------------

  /** `RouteData`: the looked-up fields, the route's strategic constraints and the derived totals. */
  datatype RouteData = RouteData(
    source: string, destination: string, mode: string, period: int,
    freightCost: Fetched, handlingCost: Fetched, quantityMultiplier: Fetched, productionCost: Fetched,
    sourceCapacity: Fetched, sourceDemand: Fetched, destinationDemand: Fetched, minFulfillmentPct: Fetched,
    sourceOpeningStock: Fetched, destinationOpeningStock: Fetched,
    sourceClosingMin: Fetched, sourceClosingMax: Fetched, destinationClosingMin: Fetched, destinationClosingMax: Fetched,
    sourceType: Fetched, destinationType: Fetched, sourceNumSources: Fetched, destinationNumSources: Fetched,
    constraints: seq<StrategicConstraint>,
    totalLogisticsCost: Fetched, totalDeliveredCost: Fetched, tripsRequired: int,
    totalTransportCost: real, stockGapSource: real, stockGapDestination: real, canFulfillDemand: bool)

  /** The sum of two fields, "N/A" unless both are numbers. */
  function SumOrNA(a: Fetched, b: Fetched): Fetched {
    if IsNumber(a) && IsNumber(b) then Found(Num(a.cell.r + b.cell.r)) else NotAvailable
  }

  /** `ceil(demand / multiplier)`, or 0 unless both are numbers and the multiplier is positive. */
  function TripsFor(demand: Fetched, multiplier: Fetched): int {
    if IsNumber(demand) && IsNumber(multiplier) && multiplier.cell.r > 0.0
    then Ceil(demand.cell.r / multiplier.cell.r)
    else 0
  }

  function ProductOr0(a: Fetched, b: Fetched): real {
    if IsNumber(a) && IsNumber(b) then a.cell.r * b.cell.r else 0.0
  }

  function GapOr0(a: Fetched, b: Fetched): real {
    if IsNumber(a) && IsNumber(b) then a.cell.r - b.cell.r else 0.0
  }

  /** Capacity plus opening stock covers demand plus the minimum closing stock; false if any is missing. */
  function CanFulfill(capacity: Fetched, opening: Fetched, demand: Fetched, closeMin: Fetched): bool {
    if IsNumber(capacity) && IsNumber(opening) && IsNumber(demand) && IsNumber(closeMin)
    then capacity.cell.r + opening.cell.r >= demand.cell.r + closeMin.cell.r
    else false
  }

  /** `get_route_data`, given the strategic constraints its loop collected. */
  function RouteWith(data: Dataset, source: string, destination: string, mode: string, period: int,
                     constraints: seq<StrategicConstraint>): RouteData
  {
    var logistics := LogisticsConds(source, destination, mode, period);
    var freight := Lookup(data, "Logistics", logistics, "FREIGHT COST");
    var handling := Lookup(data, "Logistics", logistics, "HANDLING COST");
    var multiplier := Lookup(data, "Logistics", logistics, "QUANTITY MULTIPLIER");
    var production := Lookup(data, "ProductionCost", PlantPeriodConds("IU CODE", source, period), "PRODUCTION COST");
    var capacity := Lookup(data, "Capacity", PlantPeriodConds("IU CODE", source, period), "CAPACITY");
    var sourceAt := PlantPeriodConds("IUGU CODE", source, period);
    var destinationAt := PlantPeriodConds("IUGU CODE", destination, period);
    var sourceDemand := Lookup(data, "Demand", sourceAt, "DEMAND");
    var destinationDemand := Lookup(data, "Demand", destinationAt, "DEMAND");
    var minFulfillment := Lookup(data, "Demand", destinationAt, "MIN FULFILLMENT (%)");
    var sourceOpening := Lookup(data, "OpeningStock", PlantConds(source), "OPENING STOCK");
    var destinationOpening := Lookup(data, "OpeningStock", PlantConds(destination), "OPENING STOCK");
    var sourceCloseMin := Lookup(data, "ClosingStock", sourceAt, "MIN CLOSE STOCK");
    var sourceCloseMax := Lookup(data, "ClosingStock", sourceAt, "MAX CLOSE STOCK");
    var destinationCloseMin := Lookup(data, "ClosingStock", destinationAt, "MIN CLOSE STOCK");
    var destinationCloseMax := Lookup(data, "ClosingStock", destinationAt, "MAX CLOSE STOCK");
    var totalLogistics := SumOrNA(freight, handling);
    RouteData(
      source, destination, mode, period,
      freight, handling, multiplier, production,
      capacity, sourceDemand, destinationDemand, minFulfillment,
      sourceOpening, destinationOpening,
      sourceCloseMin, sourceCloseMax, destinationCloseMin, destinationCloseMax,
      Lookup(data, "IUGUType", PlantConds(source), "PLANT TYPE"),
      Lookup(data, "IUGUType", PlantConds(destination), "PLANT TYPE"),
      Lookup(data, "IUGUType", PlantConds(source), "# Source"),
      Lookup(data, "IUGUType", PlantConds(destination), "# Source"),
      constraints,
      totalLogistics, SumOrNA(totalLogistics, production), TripsFor(destinationDemand, multiplier),
      ProductOr0(totalLogistics, destinationDemand),
      GapOr0(sourceOpening, sourceCloseMin), GapOr0(destinationOpening, destinationCloseMin),
      CanFulfill(capacity, sourceOpening, destinationDemand, destinationCloseMin))
  }

  /** `get_route_data(source, dest, mode, period)` */
  function RouteDataOf(data: Dataset, source: string, destination: string, mode: string, period: int): RouteData {
    RouteWith(data, source, destination, mode, period, StrategicConstraints(data, source, destination, mode, period))
  }

  /**
   * The derived fields of `get_route_data`: the logistics cost is freight
   * plus handling and the delivered cost adds the production cost, each
   * "N/A" unless its parts are numbers; the trip count is the least number of
   * multiplier-sized loads covering the destination demand (0 without a numeric demand and a
   * positive multiplier); the transport cost is the logistics cost times the
   * demand; each stock gap is opening stock minus the minimum closing stock;
   * the demand check compares capacity plus opening stock with demand plus
   * the destination's minimum closing stock.  Every total that lacks a number
   * is 0, and the demand check is then false.
   */
  predicate DerivedFieldsMean(r: RouteData) {
    && (r.totalLogisticsCost.Found? <==> IsNumber(r.freightCost) && IsNumber(r.handlingCost))
    && (r.totalLogisticsCost.Found? ==> r.totalLogisticsCost.cell == Num(r.freightCost.cell.r + r.handlingCost.cell.r))
    && (r.totalDeliveredCost.Found? <==>
          IsNumber(r.freightCost) && IsNumber(r.handlingCost) && IsNumber(r.productionCost))
    && (r.totalDeliveredCost.Found? ==>
          r.totalDeliveredCost.cell == Num(r.freightCost.cell.r + r.handlingCost.cell.r + r.productionCost.cell.r))
    && (r.tripsRequired != 0 ==>
          IsNumber(r.destinationDemand) && IsNumber(r.quantityMultiplier) && r.quantityMultiplier.cell.r > 0.0)
    && (IsNumber(r.destinationDemand) && IsNumber(r.quantityMultiplier) && r.quantityMultiplier.cell.r > 0.0 ==>
          && r.tripsRequired as real * r.quantityMultiplier.cell.r >= r.destinationDemand.cell.r
          && (r.tripsRequired - 1) as real * r.quantityMultiplier.cell.r < r.destinationDemand.cell.r)
    && (IsNumber(r.freightCost) && IsNumber(r.handlingCost) && IsNumber(r.destinationDemand) ==>
          r.totalTransportCost == (r.freightCost.cell.r + r.handlingCost.cell.r) * r.destinationDemand.cell.r)
    && (!(IsNumber(r.freightCost) && IsNumber(r.handlingCost) && IsNumber(r.destinationDemand)) ==>
          r.totalTransportCost == 0.0)
    && (IsNumber(r.sourceOpeningStock) && IsNumber(r.sourceClosingMin) ==>
          r.stockGapSource == r.sourceOpeningStock.cell.r - r.sourceClosingMin.cell.r)
    && (!(IsNumber(r.sourceOpeningStock) && IsNumber(r.sourceClosingMin)) ==> r.stockGapSource == 0.0)
    && (IsNumber(r.destinationOpeningStock) && IsNumber(r.destinationClosingMin) ==>
          r.stockGapDestination == r.destinationOpeningStock.cell.r - r.destinationClosingMin.cell.r)
    && (!(IsNumber(r.destinationOpeningStock) && IsNumber(r.destinationClosingMin)) ==> r.stockGapDestination == 0.0)
    && (r.canFulfillDemand <==>
          && IsNumber(r.sourceCapacity) && IsNumber(r.sourceOpeningStock)
          && IsNumber(r.destinationDemand) && IsNumber(r.destinationClosingMin)
          && r.sourceCapacity.cell.r + r.sourceOpeningStock.cell.r
             >= r.destinationDemand.cell.r + r.destinationClosingMin.cell.r)
  }

  /** `get_route_data` computes its derived fields as `DerivedFieldsMean` describes. */
  lemma {:induction false} DerivedFieldsMeaning(data: Dataset, source: string, destination: string, mode: string, period: int)
    ensures DerivedFieldsMean(RouteDataOf(data, source, destination, mode, period))
  {
    var r := RouteDataOf(data, source, destination, mode, period);
    assert DerivedFromLookups(r);
    DerivedFieldsOf(r);
  }

  /** The derived fields of `r` are computed from its looked-up fields as `get_route_data` computes them. */
  predicate DerivedFromLookups(r: RouteData) {
    && r.totalLogisticsCost == SumOrNA(r.freightCost, r.handlingCost)
    && r.totalDeliveredCost == SumOrNA(r.totalLogisticsCost, r.productionCost)
    && r.tripsRequired == TripsFor(r.destinationDemand, r.quantityMultiplier)
    && r.totalTransportCost == ProductOr0(r.totalLogisticsCost, r.destinationDemand)
    && r.stockGapSource == GapOr0(r.sourceOpeningStock, r.sourceClosingMin)
    && r.stockGapDestination == GapOr0(r.destinationOpeningStock, r.destinationClosingMin)
    && r.canFulfillDemand == CanFulfill(r.sourceCapacity, r.sourceOpeningStock, r.destinationDemand, r.destinationClosingMin)
  }

  lemma {:induction false} DerivedFieldsOf(r: RouteData)
    requires DerivedFromLookups(r)
    ensures DerivedFieldsMean(r)
  {
    if IsNumber(r.destinationDemand) && IsNumber(r.quantityMultiplier) && r.quantityMultiplier.cell.r > 0.0 {
      LoadsCover(r.destinationDemand.cell.r, r.quantityMultiplier.cell.r);
    }
  }

  /** The least whole number of loads of size `q` whose total reaches `x`. */
  lemma LoadsCover(x: real, q: real)
    requires q > 0.0
    ensures Ceil(x / q) as real * q >= x
    ensures (Ceil(x / q) - 1) as real * q < x
  {
    var y := x / q;
    var c := Ceil(y) as real;
    CeilBounds(y);
    assert y * q == x;
    MulMonotone(y, c, q);
    MulStrict(c, y + 1.0, q);
    assert (y + 1.0) * q == x + q;
    assert (Ceil(y) - 1) as real * q == c * q - q;
    assert (Ceil(y) - 1) as real * q < x;
    assert Ceil(y) == Ceil(x / q);
  }

  lemma MulMonotone(a: real, b: real, c: real)
    requires a <= b && c >= 0.0
    ensures a * c <= b * c
  {
    assert b * c - a * c == (b - a) * c;
  }

  lemma MulStrict(a: real, b: real, c: real)
    requires a < b && c > 0.0
    ensures a * c < b * c
  {
    assert b * c - a * c == (b - a) * c;
  }
}
