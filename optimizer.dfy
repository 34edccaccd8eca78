/**
 * The optimizer object: it holds the dataset the parser loaded, gathers a
 * route's facts (collecting the route's strategic constraints row by row) and
 * runs the balance-and-cost calculation on them.
 */
module Optimizer {
  import opened Tables
  import opened RouteFacts
  import opened Milp

  class ClinkerOptimizer {
    var data: Dataset
    var isLoaded: bool

    constructor ()
      ensures data == map[] && !isLoaded
    {
      data := map[];
      isLoaded := false;
    }

    /** `load_data`: adopt the parser's dataset (the numeric coercion of its columns is not modelled). */
    method LoadData(d: Dataset)
      modifies this
      ensures data == d && isLoaded
    {
      data := d;
      isLoaded := true;
    }

    /** `get_route_data`: the route's looked-up facts and the strategic constraints that apply to it. */
    method GetRouteData(source: string, destination: string, mode: string, period: int) returns (r: RouteData)
      ensures r == RouteDataOf(data, source, destination, mode, period)
    {
      var constraints := [];
      if "Constraints" in data {
        constraints := CollectStrategic(data["Constraints"], source, destination, mode, period);
      }
      r := RouteWith(data, source, destination, mode, period, constraints);
    }

    /** The loop over the Constraints rows selected by the route mask. */
    static method CollectStrategic(t: Table, source: string, destination: string, mode: string, period: int)
      returns (cs: seq<StrategicConstraint>)
      ensures cs == StrategicUpTo(ConstraintLines(t), source, destination, mode, period, |t.rows|)
    {
      ghost var lines := ConstraintLines(t);
      cs := [];
      var i := 0;
      while i < |t.rows|
        invariant i <= |t.rows| && cs == StrategicUpTo(lines, source, destination, mode, period, i)
      {
        var line := ConstraintLineAt(t, i);
        cs := KeepStrategic(lines, source, destination, mode, period, i, line, cs);
        i := i + 1;
      }
    }

    /** One row: appended when its mode and destination codes are general or the route's own. */
    static method KeepStrategic(ghost lines: seq<ConstraintLine>, source: string, destination: string, mode: string,
                                period: int, i: nat, line: ConstraintLine, cs: seq<StrategicConstraint>)
      returns (cs': seq<StrategicConstraint>)
      requires i < |lines| && line == lines[i] && cs == StrategicUpTo(lines, source, destination, mode, period, i)
      ensures cs' == StrategicUpTo(lines, source, destination, mode, period, i + 1)
    {
      cs' := cs;
      if InRouteMask(line, source, period) {
        if GeneralOr(line.transport, mode) {
          if GeneralOr(line.iugu, destination) {
            cs' := cs + [DescribeStrategic(line)];
          }
        }
      }
    }

    /** `calculate_milp_solution` */
    method CalculateMilpSolution(source: string, destination: string, mode: string, period: int)
      returns (s: Solution)
      ensures s == Solve(RouteDataOf(data, source, destination, mode, period))
    {
      var route := GetRouteData(source, destination, mode, period);
      s := Solve(route);
    }

    /** `get_all_data_for_route`, the entry point the API calls. */
    method GetAllDataForRoute(source: string, destination: string, mode: string, period: int)
      returns (s: Solution)
      ensures s == Solve(RouteDataOf(data, source, destination, mode, period))
    {
      s := CalculateMilpSolution(source, destination, mode, period);
    }
  }
}
