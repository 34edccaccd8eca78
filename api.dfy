/**
 * How the API composes the parser and the optimizer: a load hands the
 * parser's dataset to the optimizer only when the parser reports success,
 * and a route request is computed only after the parser has a dataset, all
 * four arguments are given and the selection validates.
 */
module Api {
  import opened Tables
  import opened RouteIndex
  import opened RouteFacts
  import opened Milp
  import opened Parser
  import opened Optimizer

  /** The answer to a route request. */
  datatype RouteResponse =
    | NoDatasetLoaded
    | MissingParameters
    | Invalid(errors: seq<SelectionError>)
    | Computed(solution: Solution)

  predicate AllGiven(source: Option<string>, destination: Option<string>, mode: Option<string>, period: Option<int>) {
    Given(source) && Given(destination) && Given(mode) && GivenPeriod(period)
  }

  /** An upload of a workbook: the optimizer adopts the parser's new dataset only on success. */
  method UploadWorkbook(parser: ExcelDataParser, optimizer: ClinkerOptimizer, wb: Workbook)
    returns (res: WorkbookResult)
    modifies parser, optimizer
    ensures parser.data == WorkbookData(wb)
    ensures parser.loadErrors == WorkbookErrors(wb)
    ensures parser.metadata == if parser.loadErrors == [] then MetadataOf(parser.data) else EmptyMetadata
    ensures parser.isLoaded == (old(parser.isLoaded) || parser.loadErrors == [])
    ensures res.success == Succeeded(parser.loadErrors)
    ensures res.success <==> parser.loadErrors == []
    ensures res.success ==> optimizer.data == parser.data && optimizer.isLoaded
    ensures !res.success ==> optimizer.data == old(optimizer.data) && optimizer.isLoaded == old(optimizer.isLoaded)
  {
    res := parser.LoadFromExcel(wb);
    WorkbookSuccessMeaning(wb);
    if res.success {
      optimizer.LoadData(parser.data);
    }
  }

  /** A load from a folder of files (uploaded, named or the default one), handed on only on success. */
  method LoadFolder(parser: ExcelDataParser, optimizer: ClinkerOptimizer, folder: map<string, Table>)
    returns (res: LoadResult)
    modifies parser, optimizer
    ensures parser.data == FolderData(folder)
    ensures parser.loadErrors == FolderErrors(folder)
    ensures parser.metadata == if parser.loadErrors == [] then MetadataOf(parser.data) else EmptyMetadata
    ensures parser.isLoaded == (old(parser.isLoaded) || parser.loadErrors == [])
    ensures res.success == (parser.loadErrors == [])
    ensures res.success ==> optimizer.data == parser.data && optimizer.isLoaded
    ensures !res.success ==> optimizer.data == old(optimizer.data) && optimizer.isLoaded == old(optimizer.isLoaded)
  {
    res := parser.LoadFromFolder(folder);
    if res.success {
      optimizer.LoadData(parser.data);
    }
  }

  /**
   * The route request: refused without a dataset or with an argument
   * missing, rejected with the validator's errors, and otherwise answered
   * with the optimizer's solution for the route.
   */
  method GetRoute(parser: ExcelDataParser, optimizer: ClinkerOptimizer, source: Option<string>,
                  destination: Option<string>, mode: Option<string>, period: Option<int>)
    returns (r: RouteResponse)
    ensures !parser.isLoaded ==> r == NoDatasetLoaded
    ensures parser.isLoaded && !AllGiven(source, destination, mode, period) ==> r == MissingParameters
    ensures parser.isLoaded && AllGiven(source, destination, mode, period) ==>
      var errors := SelectionErrors(parser.data, parser.ListedSources(), parser.ListedPeriods(),
                                    source, destination, mode, period);
      r == if errors == [] then Computed(Solve(RouteDataOf(optimizer.data, source.value, destination.value,
                                                           mode.value, period.value)))
           else Invalid(errors)
  {
    if !parser.isLoaded {
      return NoDatasetLoaded;
    }
    if !AllGiven(source, destination, mode, period) {
      return MissingParameters;
    }
    var validation := parser.ValidateSelection(source, destination, mode, period);
    if !validation.valid {
      return Invalid(validation.errors);
    }
    var solution := optimizer.GetAllDataForRoute(source.value, destination.value, mode.value, period.value);
    r := Computed(solution);
  }

  /**
   * A selection that passes validation names a listed source and period, a
   * destination with complete data for that source, and a mode the pair's
   * logistics rows offer: only such routes reach the optimizer.
   */
  lemma {:induction false} ValidatedSelection(data: Dataset, sources: seq<Cell>, periods: seq<real>, source: string,
                                              destination: string, mode: string, period: int)
    requires source != "" && destination != "" && mode != "" && period != 0
    requires SelectionErrors(data, sources, periods, Some(source), Some(destination), Some(mode), Some(period)) == []
    ensures Str(source) in sources
    ensures HasCompleteData(data, Str(source), Str(destination))
    ensures Str(mode) in ModesFor(data, Str(source), Str(destination))
    ensures period as real in periods
  {
    var badSource := Str(source) !in sources;
    var badRoute := !HasCompleteData(data, Str(source), Str(destination));
    var badMode := Str(mode) !in ModesFor(data, Str(source), Str(destination));
    var badPeriod := (period as real) !in periods;
    var so, de, mo, pe := Some(source), Some(destination), Some(mode), Some(period);
    assert Given(so) && Given(de) && Given(mo) && GivenPeriod(pe);
    assert so.value == source && de.value == destination && mo.value == mode && pe.value == period;
    assert so.GetOr("") == source && de.GetOr("") == destination && mo.GetOr("") == mode && pe.GetOr(0) == period;
    assert SelectionErrors(data, sources, periods, so, de, mo, pe)
      == ErrorList(badSource, badRoute, badMode, badPeriod, source, destination, mode, period);
    NoErrorsNoFailures(badSource, badRoute, badMode, badPeriod, source, destination, mode, period);
  }

  lemma NoErrorsNoFailures(badSource: bool, badRoute: bool, badMode: bool, badPeriod: bool,
                           source: string, destination: string, mode: string, period: int)
    requires ErrorList(badSource, badRoute, badMode, badPeriod, source, destination, mode, period) == []
    ensures !badSource && !badRoute && !badMode && !badPeriod
  {
    var a := Reported(badSource, UnknownSource(source));
    var b := Reported(badRoute, UnknownRoute(source, destination));
    var c := Reported(badMode, UnavailableMode(mode, source, destination));
    var d := Reported(badPeriod, UnknownPeriod(period));
    assert |a + b + c + d| == |a| + |b| + |c| + |d|;
  }
}
