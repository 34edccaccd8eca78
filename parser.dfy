/**
 * The dataset parser: loading a folder of CSV files or a workbook of sheets
 * into the dataset, the schema checks that decide whether a load succeeded,
 * the metadata it then extracts, and the queries and selection validator
 * the API serves from it.  The parser object is a class whose methods update
 * its four fields as the source's methods do.
 */
module Parser {
  import opened Tables
  import opened Schema
  import opened RouteIndex

  // ---------------------------------------------------------------------------
  // Result records
  // ---------------------------------------------------------------------------

  /** The marker that starts every error line of a workbook load. */
  const Mark := "\U{274C}"

  datatype LoadResult = LoadResult(success: bool, errors: seq<string>, metadata: Metadata)

  datatype WorkbookResult = WorkbookResult(
    success: bool, errors: seq<string>, metadata: Metadata, sheetsFound: seq<string>, sheetsRequired: seq<string>)

  datatype Completeness = Completeness(
    complete: bool, present: seq<string>, missing: seq<string>, totalRequired: nat, loadedCount: nat)

  /** The validator's messages, one constructor per message of the source. */
  datatype SelectionError =
    | NoDataset
    | UnknownSource(source: string)
    | UnknownRoute(source: string, destination: string)
    | UnavailableMode(mode: string, source: string, destination: string)
    | UnknownPeriod(period: int)

  datatype Validation = Validation(valid: bool, errors: seq<SelectionError>, warnings: seq<string>)

  /** A strategic-constraint row as the parser reports it; absent codes read `Any`. */
  datatype ParserConstraint = ParserConstraint(
    iu: Cell, mode: Cell, destination: Cell, boundType: Cell, valueType: Cell, value: Option<real>)

  // ---------------------------------------------------------------------------
  // Loading a folder of CSV files
  // ---------------------------------------------------------------------------

  /** The sheets stored from the first `k` entries of `config`, keyed by sheet name. */
  function FolderDataUpTo(config: seq<SheetSpec>, folder: map<string, Table>, k: nat): Dataset
    requires k <= |config|
  {
    if k == 0 then map[]
    else
      var c := config[k - 1];
      var m := FolderDataUpTo(config, folder, k - 1);
      if c.file in folder then m[c.name := StripColumns(folder[c.file])] else m
  }

  function FolderErrorsUpTo(config: seq<SheetSpec>, folder: map<string, Table>, k: nat): seq<string>
    requires k <= |config|
  {
    if k == 0 then []
    else
      var c := config[k - 1];
      var prev := FolderErrorsUpTo(config, folder, k - 1);
      if c.required && c.file !in folder then prev + ["Required file missing: " + c.file] else prev
  }

  function FolderData(folder: map<string, Table>): Dataset {
    FolderDataUpTo(SheetConfig, folder, |SheetConfig|)
  }

  function FolderErrors(folder: map<string, Table>): seq<string> {
    FolderErrorsUpTo(SheetConfig, folder, |SheetConfig|)
  }

  lemma {:induction false} FolderMeaningUpTo(config: seq<SheetSpec>, folder: map<string, Table>, k: nat)
    requires k <= |config| && DistinctNames(config)
    ensures forall name :: name in FolderDataUpTo(config, folder, k) ==> exists j :: 0 <= j < k && config[j].name == name
    ensures forall j :: 0 <= j < k ==>
      (config[j].name in FolderDataUpTo(config, folder, k) <==> config[j].file in folder)
    ensures forall j :: 0 <= j < k && config[j].file in folder ==>
      FolderDataUpTo(config, folder, k)[config[j].name] == StripColumns(folder[config[j].file])
    ensures FolderErrorsUpTo(config, folder, k) == [] <==>
      forall j :: 0 <= j < k && config[j].required ==> config[j].file in folder
  {
    if k > 0 {
      FolderMeaningUpTo(config, folder, k - 1);
    }
  }

  /**
   * A folder load stores every configured sheet whose file is present (with
   * stripped column names) and nothing else, and it fails exactly when a
   * required file is absent.
   */
  lemma FolderMeaning(folder: map<string, Table>)
    ensures forall name :: name in FolderData(folder) ==> name in ConfigNames()
    ensures forall j :: 0 <= j < |SheetConfig| ==>
      (SheetConfig[j].name in FolderData(folder) <==> SheetConfig[j].file in folder)
    ensures forall j :: 0 <= j < |SheetConfig| && SheetConfig[j].file in folder ==>
      FolderData(folder)[SheetConfig[j].name] == StripColumns(folder[SheetConfig[j].file])
    ensures FolderErrors(folder) == [] <==>
      forall j :: 0 <= j < |SheetConfig| && SheetConfig[j].required ==> SheetConfig[j].file in folder
  {
    SheetNamesDistinct();
    FolderMeaningUpTo(SheetConfig, folder, |SheetConfig|);
    forall name | name in FolderData(folder) ensures name in ConfigNames() {
      var j :| 0 <= j < |SheetConfig| && SheetConfig[j].name == name;
      assert ConfigNames()[j] == name;
    }
  }

  // ---------------------------------------------------------------------------
  // Loading a workbook
  // ---------------------------------------------------------------------------

  type Workbook = seq<(string, Table)>

  /** The first sheet of the workbook that stands for `spec`. */
  function MatchedSheet(wb: Workbook, spec: SheetSpec): (r: Option<nat>)
    ensures r.Some? ==> r.value < |wb|
  {
    if |wb| == 0 then None
    else if SheetNameMatches(wb[0].0, spec) then Some(0)
    else match MatchedSheet(wb[1..], spec)
      case None => None
      case Some(j) => Some(j + 1)
  }

  /** The matched sheet stands for `spec` and no earlier one does; without a match, none does. */
  lemma {:induction false} MatchedSheetMeaning(wb: Workbook, spec: SheetSpec)
    ensures var r := MatchedSheet(wb, spec);
      && (r.Some? ==> SheetNameMatches(wb[r.value].0, spec) && forall j :: 0 <= j < r.value ==> !SheetNameMatches(wb[j].0, spec))
      && (r.None? ==> forall j :: 0 <= j < |wb| ==> !SheetNameMatches(wb[j].0, spec))
  {
    if |wb| > 0 && !SheetNameMatches(wb[0].0, spec) {
      MatchedSheetMeaning(wb[1..], spec);
      forall j | 0 < j < |wb| ensures wb[j] == wb[1..][j - 1] { }
    }
  }

  /** What the workbook load does with one configuration entry. */
  datatype SheetOutcome = NotFound | Stored(table: Table) | Rejected(sheet: string, missing: seq<string>)

  function OutcomeOf(wb: Workbook, spec: SheetSpec): SheetOutcome {
    match MatchedSheet(wb, spec)
    case None => NotFound
    case Some(i) =>
      var t := StripColumns(wb[i].1);
      var missing := MissingColumns(spec.columns, t.columns);
      if spec.required && missing != [] then Rejected(wb[i].0, missing) else Stored(t)
  }

  /** A stored required sheet has every configured column; a rejected one is required and lacks some. */
  lemma OutcomeMeaning(wb: Workbook, spec: SheetSpec)
    ensures OutcomeOf(wb, spec).NotFound? <==> MatchedSheet(wb, spec).None?
    ensures OutcomeOf(wb, spec).Stored? ==>
      && MatchedSheet(wb, spec).Some?
      && OutcomeOf(wb, spec).table == StripColumns(wb[MatchedSheet(wb, spec).value].1)
      && (spec.required ==> forall col :: col in spec.columns ==>
            HasColumnIgnoringCase(OutcomeOf(wb, spec).table.columns, col))
    ensures OutcomeOf(wb, spec).Rejected? ==> spec.required && OutcomeOf(wb, spec).missing != []
  {
  }

  /** The sheets stored from the first `k` entries of `config`, given what the load does with each. */
  function StoredUpTo(config: seq<SheetSpec>, outcomes: seq<SheetOutcome>, k: nat): Dataset
    requires k <= |config| == |outcomes|
  {
    if k == 0 then map[]
    else
      var m := StoredUpTo(config, outcomes, k - 1);
      match outcomes[k - 1]
      case Stored(t) => m[config[k - 1].name := t]
      case _ => m
  }

  function MissingSheetsUpTo(config: seq<SheetSpec>, outcomes: seq<SheetOutcome>, k: nat): seq<string>
    requires k <= |config| == |outcomes|
  {
    if k == 0 then []
    else
      var c := config[k - 1];
      var prev := MissingSheetsUpTo(config, outcomes, k - 1);
      if c.required && outcomes[k - 1].NotFound? then prev + [c.name + " (expected: " + Stem(c.file) + ")"] else prev
  }

  function InvalidColumnsUpTo(config: seq<SheetSpec>, outcomes: seq<SheetOutcome>, k: nat): seq<string>
    requires k <= |config| == |outcomes|
  {
    if k == 0 then []
    else
      var prev := InvalidColumnsUpTo(config, outcomes, k - 1);
      match outcomes[k - 1]
      case Rejected(sheet, missing) => prev + ["Sheet '" + sheet + "' missing columns: " + Join(missing, ", ")]
      case _ => prev
  }

  /** One help line per required sheet, in configuration order. */
  function RequiredLinesUpTo(config: seq<SheetSpec>, k: nat): seq<string>
    requires k <= |config|
  {
    if k == 0 then []
    else
      var c := config[k - 1];
      var prev := RequiredLinesUpTo(config, k - 1);
      if c.required then prev + ["  \U{2022} " + c.name + " (" + c.file + "): " + Join(c.columns, ", ")] else prev
  }

  function HelpLines(): seq<string> {
    ["", "\U{1F4CB} Required sheets and columns:"] + RequiredLinesUpTo(SheetConfig, |SheetConfig|)
  }

  function Marked(lines: seq<string>): (r: seq<string>)
    ensures |r| == |lines|
    ensures forall i :: 0 <= i < |r| ==> r[i] == Mark + " " + lines[i]
  {
    if |lines| == 0 then [] else Marked(lines[..|lines| - 1]) + [Mark + " " + lines[|lines| - 1]]
  }

  function MissingSheets(wb: Workbook): seq<string> {
    MissingSheetsUpTo(SheetConfig, Outcomes(SheetConfig, wb), |SheetConfig|)
  }

  function InvalidColumns(wb: Workbook): seq<string> {
    InvalidColumnsUpTo(SheetConfig, Outcomes(SheetConfig, wb), |SheetConfig|)
  }

  /** The error lines of a workbook load, before the help block. */
  function WorkbookProblems(wb: Workbook): seq<string> {
    ProblemLines(MissingSheets(wb), InvalidColumns(wb))
  }

  /** One marked line naming all missing sheets (when any), then one marked line per invalid sheet. */
  function ProblemLines(missing: seq<string>, invalid: seq<string>): seq<string> {
    (if missing != [] then [Mark + " Missing required sheets: " + Join(missing, ", ")] else []) + Marked(invalid)
  }

  function WorkbookErrors(wb: Workbook): seq<string> {
    var problems := WorkbookProblems(wb);
    if problems == [] then [] else problems + HelpLines()
  }

  /** What the workbook load does with each configuration entry. */
  function ScanUpTo(config: seq<SheetSpec>, outcomes: seq<SheetOutcome>, k: nat): (Dataset, seq<string>, seq<string>)
    requires k <= |config| == |outcomes|
  {
    (StoredUpTo(config, outcomes, k), MissingSheetsUpTo(config, outcomes, k), InvalidColumnsUpTo(config, outcomes, k))
  }

  function Outcomes(config: seq<SheetSpec>, wb: Workbook): (r: seq<SheetOutcome>)
    ensures |r| == |config|
    ensures forall j :: 0 <= j < |config| ==> r[j] == OutcomeOf(wb, config[j])
  {
    seq(|config|, j requires 0 <= j < |config| => OutcomeOf(wb, config[j]))
  }

  function WorkbookData(wb: Workbook): Dataset {
    StoredUpTo(SheetConfig, Outcomes(SheetConfig, wb), |SheetConfig|)
  }

  /** The configured sheet names, in configuration order. */
  function ConfigNames(): seq<string> {
    seq(|SheetConfig|, i requires 0 <= i < |SheetConfig| => SheetConfig[i].name)
  }

  /** The names of `names` that are (are not) sheets of `data`, in order. */
  function NamesIn(names: seq<string>, data: Dataset): seq<string> {
    Filter(names, n => n in data)
  }

  function NamesNotIn(names: seq<string>, data: Dataset): seq<string> {
    Filter(names, n => n !in data)
  }

  predicate Succeeded(errors: seq<string>) {
    Filter(errors, e => StartsWith(e, Mark)) == []
  }

  lemma {:induction false} WorkbookListsUpTo(config: seq<SheetSpec>, outcomes: seq<SheetOutcome>, k: nat)
    requires k <= |config| == |outcomes|
    ensures MissingSheetsUpTo(config, outcomes, k) == [] <==>
      forall j :: 0 <= j < k && config[j].required ==> !outcomes[j].NotFound?
    ensures InvalidColumnsUpTo(config, outcomes, k) == [] <==> forall j :: 0 <= j < k ==> !outcomes[j].Rejected?
  {
    if k > 0 {
      WorkbookListsUpTo(config, outcomes, k - 1);
    }
  }

  lemma {:induction false} StoredMeaningUpTo(config: seq<SheetSpec>, outcomes: seq<SheetOutcome>, k: nat)
    requires k <= |config| == |outcomes| && DistinctNames(config)
    ensures forall name :: name in StoredUpTo(config, outcomes, k) ==> exists j :: 0 <= j < k && config[j].name == name
    ensures forall j :: 0 <= j < k ==> (config[j].name in StoredUpTo(config, outcomes, k) <==> outcomes[j].Stored?)
    ensures forall j :: 0 <= j < k && outcomes[j].Stored? ==>
      StoredUpTo(config, outcomes, k)[config[j].name] == outcomes[j].table
  {
    if k > 0 {
      StoredMeaningUpTo(config, outcomes, k - 1);
    }
  }

  /**
   * A workbook load succeeds (no line carries the error marker) exactly when
   * it reports no error at all, exactly when every required sheet is found
   * and carries all its configured columns.
   */
  lemma WorkbookSuccessMeaning(wb: Workbook)
    ensures Succeeded(WorkbookErrors(wb)) <==> WorkbookErrors(wb) == []
    ensures WorkbookErrors(wb) == [] <==>
      forall j :: 0 <= j < |SheetConfig| && SheetConfig[j].required ==> OutcomeOf(wb, SheetConfig[j]).Stored?
  {
    WorkbookListsUpTo(SheetConfig, Outcomes(SheetConfig, wb), |SheetConfig|);
    var errors := WorkbookErrors(wb);
    if errors != [] {
      var missing := MissingSheets(wb);
      var invalid := InvalidColumns(wb);
      assert StartsWith(errors[0], Mark) by {
        if missing != [] {
          assert errors[0] == Mark + " Missing required sheets: " + Join(missing, ", ");
        } else {
          assert errors[0] == Mark + " " + invalid[0];
        }
      }
      assert errors[0] in Filter(errors, e => StartsWith(e, Mark));
    }
  }

  /**
   * The sheets a workbook load stores: each configured sheet whose outcome
   * is `Stored`, under its configured name, and nothing else.
   */
  lemma WorkbookDataMeaning(wb: Workbook)
    ensures forall name :: name in WorkbookData(wb) ==> name in ConfigNames()
    ensures forall j :: 0 <= j < |SheetConfig| ==>
      (SheetConfig[j].name in WorkbookData(wb) <==> OutcomeOf(wb, SheetConfig[j]).Stored?)
    ensures forall j :: 0 <= j < |SheetConfig| && OutcomeOf(wb, SheetConfig[j]).Stored? ==>
      WorkbookData(wb)[SheetConfig[j].name] == OutcomeOf(wb, SheetConfig[j]).table
  {
    SheetNamesDistinct();
    StoredMeaningUpTo(SheetConfig, Outcomes(SheetConfig, wb), |SheetConfig|);
    forall name | name in WorkbookData(wb) ensures name in ConfigNames() {
      var j :| 0 <= j < |SheetConfig| && SheetConfig[j].name == name;
      assert ConfigNames()[j] == name;
    }
  }

  // ---------------------------------------------------------------------------
  // Strategic constraints as the parser lists them
  // ---------------------------------------------------------------------------

  function AnyIfMissing(c: Cell): Cell {
    if c == Missing then Str("Any") else c
  }

  /** The cells of one constraints row that `_get_constraints` reads. */
  datatype ConstraintRow = ConstraintRow(
    iu: Cell, mode: Cell, destination: Cell, period: Cell, boundType: Cell, valueType: Cell, value: Cell)

  function ConstraintRowAt(t: Table, i: nat): ConstraintRow
    requires i < |t.rows|
  {
    ConstraintRow(CellAt(t, i, "IU CODE"), CellAt(t, i, "TRANSPORT CODE"), CellAt(t, i, "IUGU CODE"),
                  CellAt(t, i, "TIME PERIOD"), CellAt(t, i, "BOUND TYPEID"), CellAt(t, i, "VALUE TYPEID"),
                  CellAt(t, i, "Value"))
  }

  /** The rows of the constraints sheet, in sheet order. */
  function ConstraintRows(t: Table): (rows: seq<ConstraintRow>)
    ensures |rows| == |t.rows|
  {
    seq(|t.rows|, i requires 0 <= i < |t.rows| => ConstraintRowAt(t, i))
  }

  /** A constraint row applies when each code is empty or equal to the selection, and the period matches. */
  predicate ParserConstraintApplies(row: ConstraintRow, source: string, destination: string, mode: string, period: int) {
    && (row.iu == Missing || row.iu == Str(source))
    && (row.mode == Missing || row.mode == Str(mode))
    && (row.destination == Missing || row.destination == Str(destination))
    && Matches(row.period, Num(period as real))
  }

  function DescribeConstraint(row: ConstraintRow): ParserConstraint {
    ParserConstraint(AnyIfMissing(row.iu), AnyIfMissing(row.mode), AnyIfMissing(row.destination),
                     row.boundType, row.valueType, match row.value case Num(x) => Some(x) case _ => None)
  }

  function ParserConstraintsUpTo(rows: seq<ConstraintRow>, source: string, destination: string, mode: string,
                                 period: int, n: nat): seq<ParserConstraint>
    requires n <= |rows|
  {
    if n == 0 then []
    else
      var prev := ParserConstraintsUpTo(rows, source, destination, mode, period, n - 1);
      if ParserConstraintApplies(rows[n - 1], source, destination, mode, period) then prev + [DescribeConstraint(rows[n - 1])]
      else prev
  }

  /** Some applying row among the first `n` is described by `c`. */
  ghost predicate DescribedAmong(rows: seq<ConstraintRow>, source: string, destination: string, mode: string,
                                 period: int, n: nat, c: ParserConstraint)
    requires n <= |rows|
  {
    exists i :: 0 <= i < n && ParserConstraintApplies(rows[i], source, destination, mode, period) && DescribeConstraint(rows[i]) == c
  }

  /** The listed constraints are the descriptions of exactly the applying rows. */
  lemma {:induction false} ParserConstraintsMeaning(rows: seq<ConstraintRow>, source: string, destination: string,
                                                    mode: string, period: int, n: nat)
    requires n <= |rows|
    ensures |ParserConstraintsUpTo(rows, source, destination, mode, period, n)| <= n &&
      forall c :: c in ParserConstraintsUpTo(rows, source, destination, mode, period, n) <==>
        DescribedAmong(rows, source, destination, mode, period, n, c)
  {
    if n > 0 {
      ParserConstraintsMeaning(rows, source, destination, mode, period, n - 1);
      SnocMembers(ParserConstraintsUpTo(rows, source, destination, mode, period, n - 1),
                  ParserConstraintsUpTo(rows, source, destination, mode, period, n),
                  ParserConstraintApplies(rows[n - 1], source, destination, mode, period), DescribeConstraint(rows[n - 1]));
      forall c | DescribedAmong(rows, source, destination, mode, period, n, c)
        ensures DescribedAmong(rows, source, destination, mode, period, n - 1, c) ||
          (ParserConstraintApplies(rows[n - 1], source, destination, mode, period) && DescribeConstraint(rows[n - 1]) == c)
      {
        var i :| 0 <= i < n && ParserConstraintApplies(rows[i], source, destination, mode, period) && DescribeConstraint(rows[i]) == c;
        if i < n - 1 {
          assert DescribedAmong(rows, source, destination, mode, period, n - 1, c);
        }
      }
    }
  }

  // ---------------------------------------------------------------------------
  // The selection validator's vocabulary
  // ---------------------------------------------------------------------------

  /** A request argument counts as given when it is present and non-empty (non-zero for the period). */
  predicate Given(x: Option<string>) {
    x.Some? && x.value != ""
  }

  predicate GivenPeriod(p: Option<int>) {
    p.Some? && p.value != 0
  }

  /** The position of each kind of error in the validator's fixed order. */
  function Rank(e: SelectionError): nat {
    match e
    case NoDataset => 0
    case UnknownSource(_) => 1
    case UnknownRoute(_, _) => 2
    case UnavailableMode(_, _, _) => 3
    case UnknownPeriod(_) => 4
  }

  predicate RankOrdered(errors: seq<SelectionError>) {
    forall i, j :: 0 <= i < j < |errors| ==> Rank(errors[i]) < Rank(errors[j])
  }

  /** The one error of a check that failed, or none. */
  function Reported(failed: bool, e: SelectionError): seq<SelectionError> {
    if failed then [e] else []
  }

  /**
   * The errors of the four checks, in the validator's order: each flag
   * says whether its check failed, and the strings are the request's
   * arguments the messages quote.
   */
  function ErrorList(badSource: bool, badRoute: bool, badMode: bool, badPeriod: bool,
                     source: string, destination: string, mode: string, period: int): seq<SelectionError>
  {
    Reported(badSource, UnknownSource(source)) + Reported(badRoute, UnknownRoute(source, destination))
      + Reported(badMode, UnavailableMode(mode, source, destination)) + Reported(badPeriod, UnknownPeriod(period))
  }

  lemma ReportedMember(failed: bool, e: SelectionError, x: SelectionError)
    ensures x in Reported(failed, e) <==> failed && x == e
  {
  }

  /** Each error is reported exactly when its check failed, quoting the request's arguments, and nothing else is. */
  lemma ErrorListMembers(badSource: bool, badRoute: bool, badMode: bool, badPeriod: bool,
                         source: string, destination: string, mode: string, period: int)
    ensures var errors := ErrorList(badSource, badRoute, badMode, badPeriod, source, destination, mode, period);
      && NoDataset !in errors
      && (UnknownSource(source) in errors <==> badSource)
      && (UnknownRoute(source, destination) in errors <==> badRoute)
      && (UnavailableMode(mode, source, destination) in errors <==> badMode)
      && (UnknownPeriod(period) in errors <==> badPeriod)
      && (forall e :: e in errors ==>
            e in [UnknownSource(source), UnknownRoute(source, destination),
                  UnavailableMode(mode, source, destination), UnknownPeriod(period)])
  {
    var a := Reported(badSource, UnknownSource(source));
    var b := Reported(badRoute, UnknownRoute(source, destination));
    var c := Reported(badMode, UnavailableMode(mode, source, destination));
    var d := Reported(badPeriod, UnknownPeriod(period));
    assert forall x :: x in a + b + c + d <==> x in a || x in b || x in c || x in d;
    forall x ensures x in a <==> badSource && x == UnknownSource(source) {
      ReportedMember(badSource, UnknownSource(source), x);
    }
    forall x ensures x in b <==> badRoute && x == UnknownRoute(source, destination) {
      ReportedMember(badRoute, UnknownRoute(source, destination), x);
    }
    forall x ensures x in c <==> badMode && x == UnavailableMode(mode, source, destination) {
      ReportedMember(badMode, UnavailableMode(mode, source, destination), x);
    }
    forall x ensures x in d <==> badPeriod && x == UnknownPeriod(period) {
      ReportedMember(badPeriod, UnknownPeriod(period), x);
    }
  }

  /** The errors come in the fixed order source, route, mode, period, at most one of each kind. */
  lemma ErrorListOrdered(badSource: bool, badRoute: bool, badMode: bool, badPeriod: bool,
                         source: string, destination: string, mode: string, period: int)
    ensures RankOrdered(ErrorList(badSource, badRoute, badMode, badPeriod, source, destination, mode, period))
  {
    var a := Reported(badSource, UnknownSource(source));
    assert RankOrdered(a) && RanksBelow(a, 2);
    RankedAppend(a, badRoute, UnknownRoute(source, destination));
    var b := a + Reported(badRoute, UnknownRoute(source, destination));
    RankedAppend(b, badMode, UnavailableMode(mode, source, destination));
    var c := b + Reported(badMode, UnavailableMode(mode, source, destination));
    RankedAppend(c, badPeriod, UnknownPeriod(period));
  }

  predicate RanksBelow(errors: seq<SelectionError>, k: nat) {
    forall i :: 0 <= i < |errors| ==> Rank(errors[i]) < k
  }

  /** Appending an error that outranks everything present keeps the list rank-ordered. */
  lemma RankedAppend(errors: seq<SelectionError>, failed: bool, e: SelectionError)
    requires RankOrdered(errors) && RanksBelow(errors, Rank(e))
    ensures RankOrdered(errors + Reported(failed, e)) && RanksBelow(errors + Reported(failed, e), Rank(e) + 1)
  {
  }

  /**
   * The errors the validator reports for a loaded dataset whose metadata
   * lists `sources` and `periods`: an unlisted source; a pair without
   * complete data; a mode the pair's rows do not offer; an unlisted period.
   * Each check runs only when its arguments are given.
   */
  function SelectionErrors(data: Dataset, sources: seq<Cell>, periods: seq<real>, source: Option<string>,
                           destination: Option<string>, mode: Option<string>, period: Option<int>)
    : seq<SelectionError>
  {
    ErrorList(
      Given(source) && Str(source.value) !in sources,
      Given(source) && Given(destination) && !HasCompleteData(data, Str(source.value), Str(destination.value)),
      Given(source) && Given(destination) && Given(mode)
        && Str(mode.value) !in ModesFor(data, Str(source.value), Str(destination.value)),
      GivenPeriod(period) && (period.value as real) !in periods,
      source.GetOr(""), destination.GetOr(""), mode.GetOr(""), period.GetOr(0))
  }

  /** `SelectionErrors` is the error list of the four checks' outcomes. */
  lemma SelectionErrorsOfChecks(data: Dataset, sources: seq<Cell>, periods: seq<real>, source: Option<string>,
                                destination: Option<string>, mode: Option<string>, period: Option<int>,
                                badSource: bool, badRoute: bool, badMode: bool, badPeriod: bool)
    requires badSource == (Given(source) && Str(source.value) !in sources)
    requires badRoute == (Given(source) && Given(destination) &&
      Str(destination.value) !in DestinationsFor(data, Str(source.value)))
    requires badMode == (Given(source) && Given(destination) && Given(mode)
      && Str(mode.value) !in ModesFor(data, Str(source.value), Str(destination.value)))
    requires badPeriod == (GivenPeriod(period) && (period.value as real) !in periods)
    ensures SelectionErrors(data, sources, periods, source, destination, mode, period)
      == ErrorList(badSource, badRoute, badMode, badPeriod,
                   source.GetOr(""), destination.GetOr(""), mode.GetOr(""), period.GetOr(0))
  {
    if Given(source) {
      DestinationsForMeaning(data, Str(source.value));
    }
  }

  // ---------------------------------------------------------------------------
  // The parser object
  // ---------------------------------------------------------------------------

  class ExcelDataParser {
    var data: Dataset
    var metadata: Metadata
    var isLoaded: bool
    var loadErrors: seq<string>

    constructor ()
      ensures data == map[] && metadata == EmptyMetadata && !isLoaded && loadErrors == []
    {
      data := map[];
      metadata := EmptyMetadata;
      isLoaded := false;
      loadErrors := [];
    }

    /** `load_from_folder`, with the folder given as its readable files keyed by file name. */
    method LoadFromFolder(folder: map<string, Table>) returns (res: LoadResult)
      modifies this
      ensures data == FolderData(folder)
      ensures loadErrors == FolderErrors(folder)
      ensures isLoaded == (old(isLoaded) || loadErrors == [])
      ensures metadata == if loadErrors == [] then MetadataOf(data) else EmptyMetadata
      ensures res == LoadResult(loadErrors == [], loadErrors, if isLoaded then metadata else EmptyMetadata)
    {
      data := map[];
      metadata := EmptyMetadata;
      loadErrors := [];
      var stored, errors := ReadFolder(SheetConfig, folder);
      data, loadErrors := stored, errors;
      if loadErrors == [] {
        isLoaded := true;
        ExtractMetadata();
      }
      res := LoadResult(|loadErrors| == 0, loadErrors, if isLoaded then metadata else EmptyMetadata);
    }

    /** The file loop of `load_from_folder`: the stored sheets and the missing-file errors. */
    static method ReadFolder(config: seq<SheetSpec>, folder: map<string, Table>) returns (stored: Dataset, errors: seq<string>)
      ensures (stored, errors) == (FolderDataUpTo(config, folder, |config|), FolderErrorsUpTo(config, folder, |config|))
    {
      stored, errors := map[], [];
      var k := 0;
      while k < |config|
        invariant k <= |config| && (stored, errors) == (FolderDataUpTo(config, folder, k), FolderErrorsUpTo(config, folder, k))
      {
        stored, errors := ReadFile(config, folder, k, stored, errors);
        k := k + 1;
      }
    }

    /** One configured file: store its sheet when present, report it when required and absent. */
    static method ReadFile(config: seq<SheetSpec>, folder: map<string, Table>, k: nat, stored: Dataset, errors: seq<string>)
      returns (stored': Dataset, errors': seq<string>)
      requires k < |config| && (stored, errors) == (FolderDataUpTo(config, folder, k), FolderErrorsUpTo(config, folder, k))
      ensures (stored', errors') == (FolderDataUpTo(config, folder, k + 1), FolderErrorsUpTo(config, folder, k + 1))
    {
      var c := config[k];
      stored', errors' := stored, errors;
      if c.file in folder {
        stored' := stored[c.name := StripColumns(folder[c.file])];
      } else if c.required {
        errors' := errors + ["Required file missing: " + c.file];
      }
    }

    /** The first workbook sheet standing for `spec`, searched in workbook order. */
    static method FindSheet(wb: Workbook, spec: SheetSpec) returns (m: Option<nat>)
      ensures m == MatchedSheet(wb, spec)
    {
      m := None;
      var j := 0;
      while j < |wb|
        invariant 0 <= j <= |wb|
        invariant forall i :: 0 <= i < j ==> !SheetNameMatches(wb[i].0, spec)
      {
        if SheetNameMatches(wb[j].0, spec) {
          m := Some(j);
          break;
        }
        j := j + 1;
      }
      UniqueFirstSheet(wb, spec, m);
    }

    static lemma UniqueFirstSheet(wb: Workbook, spec: SheetSpec, m: Option<nat>)
      requires m.Some? ==> m.value < |wb| && SheetNameMatches(wb[m.value].0, spec)
      requires m.Some? ==> forall i :: 0 <= i < m.value ==> !SheetNameMatches(wb[i].0, spec)
      requires m.None? ==> forall i :: 0 <= i < |wb| ==> !SheetNameMatches(wb[i].0, spec)
      ensures m == MatchedSheet(wb, spec)
    {
      MatchedSheetMeaning(wb, spec);
      var r := MatchedSheet(wb, spec);
      if m.Some? && r.Some? {
        assert !(m.value < r.value) && !(r.value < m.value);
      }
    }

    /** `load_from_excel`, with the workbook given as its sheets in workbook order. */
    method LoadFromExcel(wb: Workbook) returns (res: WorkbookResult)
      modifies this
      ensures data == WorkbookData(wb)
      ensures loadErrors == WorkbookErrors(wb)
      ensures isLoaded == (old(isLoaded) || loadErrors == [])
      ensures metadata == if loadErrors == [] then MetadataOf(data) else EmptyMetadata
      ensures res == WorkbookResult(Succeeded(loadErrors), loadErrors, if isLoaded then metadata else EmptyMetadata,
                                    NamesIn(ConfigNames(), data), RequiredSheetNames())
    {
      data := map[];
      metadata := EmptyMetadata;
      loadErrors := [];
      var stored, errors := ReadWorkbook(wb);
      data, loadErrors := stored, errors;
      if loadErrors == [] {
        isLoaded := true;
        ExtractMetadata();
      }
      res := WorkbookResult(Succeeded(loadErrors), loadErrors, if isLoaded then metadata else EmptyMetadata,
                            NamesIn(ConfigNames(), data), RequiredSheetNames());
    }

    /** The sheets `load_from_excel` stores and the error lines it reports, help block included. */
    static method ReadWorkbook(wb: Workbook) returns (stored: Dataset, errors: seq<string>)
      ensures (stored, errors) == (WorkbookData(wb), WorkbookErrors(wb))
    {
      var missingSheets, invalidColumns;
      stored, missingSheets, invalidColumns := ScanWorkbook(SheetConfig, wb);
      errors := ReportProblems(missingSheets, invalidColumns);
      if errors != [] {
        errors := AppendHelp(errors);
      }
    }

    /** The first pass of `load_from_excel`: the stored sheets and the two problem lists. */
    static method ScanWorkbook(config: seq<SheetSpec>, wb: Workbook)
      returns (stored: Dataset, missingSheets: seq<string>, invalidColumns: seq<string>)
      ensures (stored, missingSheets, invalidColumns) == ScanUpTo(config, Outcomes(config, wb), |config|)
    {
      ghost var outs := Outcomes(config, wb);
      stored := map[];
      missingSheets := [];
      invalidColumns := [];
      var k := 0;
      while k < |config|
        invariant k <= |config| && (stored, missingSheets, invalidColumns) == ScanUpTo(config, outs, k)
      {
        var o := ClassifySheet(wb, config[k]);
        stored, missingSheets, invalidColumns := RecordOutcome(config, outs, k, o, stored, missingSheets, invalidColumns);
        k := k + 1;
      }
    }

    /** What one entry's outcome adds to the stored sheets and the two problem lists. */
    static method RecordOutcome(config: seq<SheetSpec>, ghost outs: seq<SheetOutcome>, k: nat, o: SheetOutcome,
                                stored: Dataset, missingSheets: seq<string>, invalidColumns: seq<string>)
      returns (stored': Dataset, missingSheets': seq<string>, invalidColumns': seq<string>)
      requires k < |config| == |outs| && o == outs[k] && (stored, missingSheets, invalidColumns) == ScanUpTo(config, outs, k)
      ensures (stored', missingSheets', invalidColumns') == ScanUpTo(config, outs, k + 1)
    {
      var c := config[k];
      stored', missingSheets', invalidColumns' := stored, missingSheets, invalidColumns;
      match o {
        case Stored(t) =>
          stored' := stored[c.name := t];
        case Rejected(sheet, missingCols) =>
          invalidColumns' := invalidColumns + ["Sheet '" + sheet + "' missing columns: " + Join(missingCols, ", ")];
        case NotFound =>
          if c.required {
            missingSheets' := missingSheets + [c.name + " (expected: " + Stem(c.file) + ")"];
          }
      }
    }

    /** One entry of the first pass: find the sheet, strip its column names, check its columns. */
    static method ClassifySheet(wb: Workbook, c: SheetSpec) returns (o: SheetOutcome)
      ensures o == OutcomeOf(wb, c)
    {
      var matched := FindSheet(wb, c);
      if matched.None? {
        return NotFound;
      }
      var t := StripColumns(wb[matched.value].1);
      if c.required {
        var missingCols := MissingColumns(c.columns, t.columns);
        if missingCols != [] {
          return Rejected(wb[matched.value].0, missingCols);
        }
      }
      o := Stored(t);
    }

    /** The error lines `load_from_excel` builds from its two problem lists. */
    static method ReportProblems(missingSheets: seq<string>, invalidColumns: seq<string>) returns (r: seq<string>)
      ensures r == ProblemLines(missingSheets, invalidColumns)
    {
      r := [];
      if missingSheets != [] {
        r := r + [Mark + " Missing required sheets: " + Join(missingSheets, ", ")];
      }
      ghost var head := r;
      var j := 0;
      while j < |invalidColumns|
        invariant 0 <= j <= |invalidColumns|
        invariant r == head + Marked(invalidColumns[..j])
      {
        assert invalidColumns[..j + 1][..j] == invalidColumns[..j];
        r := r + [Mark + " " + invalidColumns[j]];
        j := j + 1;
      }
      assert invalidColumns[..j] == invalidColumns;
    }

    /** The help block `load_from_excel` appends after its errors. */
    static method AppendHelp(errors: seq<string>) returns (r: seq<string>)
      ensures r == errors + HelpLines()
    {
      r := errors + ["", "\U{1F4CB} Required sheets and columns:"];
      var i := 0;
      while i < |SheetConfig|
        invariant 0 <= i <= |SheetConfig|
        invariant r == errors + ["", "\U{1F4CB} Required sheets and columns:"] + RequiredLinesUpTo(SheetConfig, i)
      {
        var c := SheetConfig[i];
        if c.required {
          r := r + ["  \U{2022} " + c.name + " (" + c.file + "): " + Join(c.columns, ", ")];
        }
        i := i + 1;
      }
    }

    /** `validate_complete_dataset`: the required sheets split into present and missing. */
    method ValidateCompleteDataset() returns (r: Completeness)
      ensures r.present == NamesIn(RequiredSheetNames(), data)
      ensures r.missing == NamesNotIn(RequiredSheetNames(), data)
      ensures forall n :: n in r.present <==> n in RequiredSheetNames() && n in data
      ensures forall n :: n in r.missing <==> n in RequiredSheetNames() && n !in data
      ensures r.complete <==> r.missing == []
      ensures r.totalRequired == |RequiredSheetNames()| == 7
      ensures r.loadedCount == |r.present| && r.loadedCount + |r.missing| == r.totalRequired
    {
      var names := RequiredSheetNames();
      RequiredSheetsAreTheSeven();
      var present: seq<string> := [];
      var missing: seq<string> := [];
      var i := 0;
      while i < |names|
        invariant 0 <= i <= |names|
        invariant present == NamesIn(names[..i], data)
        invariant missing == NamesNotIn(names[..i], data)
        invariant |present| + |missing| == i
      {
        assert names[..i + 1][..i] == names[..i];
        if names[i] in data {
          present := present + [names[i]];
        } else {
          missing := missing + [names[i]];
        }
        i := i + 1;
      }
      assert names[..i] == names;
      r := Completeness(|missing| == 0, present, missing, |names|, |present|);
    }

    /** `_extract_metadata`, run right after a successful load on a freshly emptied dictionary. */
    method ExtractMetadata()
      requires isLoaded && metadata == EmptyMetadata
      modifies this`metadata
      ensures metadata == MetadataOf(data)
    {
      if "IUGUType" in data {
        var t := data["IUGUType"];
        metadata := metadata.(
          plants := Some(Unique(Column(t, "IUGU CODE"))),
          iuPlants := Some(PlantsOfType(t, "IU")),
          guPlants := Some(PlantsOfType(t, "GU")));
      }
      if "Logistics" in data {
        var l := data["Logistics"];
        metadata := metadata.(
          allDestinations := Some(Unique(Column(l, ToCol))),
          transportModes := Some(Unique(Column(l, ModeCol))),
          sourceIus := Some(Unique(Column(l, FromCol))));
      }
      if "Logistics" in data {
        metadata := metadata.(periods := Some(SortedDistinct(Numbers(Column(data["Logistics"], PeriodCol)))));
      } else if "Demand" in data {
        metadata := metadata.(periods := Some(SortedDistinct(Numbers(Column(data["Demand"], PeriodCol)))));
      }
      metadata := metadata.(recordCounts := Some(map name | name in data :: |data[name].rows|));
      if "Logistics" in data {
        BuildRouteIndex();
      }
      assert metadata == RawMetadataOf(data);
      FilterSourcesWithCompleteData();
    }

    /** `_filter_sources_with_complete_data` */
    method FilterSourcesWithCompleteData()
      requires isLoaded
      modifies this`metadata
      ensures metadata == FilterSources(data, old(metadata))
    {
      if metadata.sourceIus.None? {
        return;
      }
      var all := metadata.sourceIus.value;
      var valid := KeepServedSources(data, all);
      metadata := metadata.(sourceIus := Some(valid), allSourcesCount := Some(|all|),
                            validSourcesCount := Some(|valid|));
    }

    /** One source of `_filter_sources_with_complete_data`: kept when it has a valid destination. */
    static method KeepIfServed(dataset: Dataset, all: seq<Cell>, i: nat, valid: seq<Cell>) returns (valid': seq<Cell>)
      requires i < |all| && valid == ValidSources(dataset, all[..i])
      ensures valid' == ValidSources(dataset, all[..i + 1])
    {
      assert all[..i + 1][..i] == all[..i];
      valid' := valid;
      var destinations := CompleteDestinations(dataset, all[i]);
      if destinations != [] {
        valid' := valid + [all[i]];
      }
    }

    /** The loop of `_filter_sources_with_complete_data`: keep the sources with a valid destination. */
    static method KeepServedSources(dataset: Dataset, all: seq<Cell>) returns (valid: seq<Cell>)
      ensures valid == ValidSources(dataset, all)
    {
      valid := [];
      var i := 0;
      while i < |all|
        invariant i <= |all| && valid == ValidSources(dataset, all[..i])
      {
        valid := KeepIfServed(dataset, all, i, valid);
        i := i + 1;
      }
      assert all[..i] == all;
    }

    /** `_build_route_index`: the per-source route lists and the per-pair mode lists. */
    method BuildRouteIndex()
      requires "Logistics" in data
      modifies this`metadata
      ensures metadata == old(metadata).(routesBySource := Some(RoutesBySourceOf(data["Logistics"])),
                                         modesByRoute := Some(ModesIndex(data["Logistics"])))
    {
      var l := data["Logistics"];
      var sources := Unique(Column(l, FromCol));
      var routes: map<Cell, seq<Cell>> := map[];
      var i := 0;
      while i < |sources|
        invariant 0 <= i <= |sources|
        invariant routes == MapUpTo(sources, s => SourceDestinations(l, s), i)
      {
        routes := routes[sources[i] := SourceDestinations(l, sources[i])];
        i := i + 1;
      }
      RoutesLoopBuildsMap(l);
      var modes := IndexModes(l);
      metadata := metadata.(routesBySource := Some(routes), modesByRoute := Some(modes));
    }

    /** The second loop of `_build_route_index`: the modes of each (source, destination) pair. */
    static method IndexModes(l: Table) returns (modes: map<RouteKey, seq<Cell>>)
      ensures modes == ModesIndex(l)
    {
      modes := map[];
      var n := 0;
      while n < |l.rows|
        invariant 0 <= n <= |l.rows|
        invariant modes == ModesIndexUpTo(l, n)
      {
        var key := (CellAt(l, n, FromCol), CellAt(l, n, ToCol));
        var mode := CellAt(l, n, ModeCol);
        OpenThenAppend(modes, key, mode);
        assert ModesIndexUpTo(l, n + 1) == AddMode(modes, key, mode);
        if key !in modes {
          modes := modes[key := []];
        }
        if mode !in modes[key] {
          modes := modes[key := modes[key] + [mode]];
        }
        n := n + 1;
      }
    }

    /** `get_destinations_for_source` */
    method GetDestinationsForSource(source: Cell) returns (r: seq<Cell>)
      ensures r == if isLoaded then DestinationsFor(data, source) else []
    {
      if !isLoaded {
        return [];
      }
      r := CompleteDestinations(data, source);
    }

    /** The loop of `get_destinations_for_source` over a loaded dataset. */
    static method CompleteDestinations(dataset: Dataset, source: Cell) returns (r: seq<Cell>)
      ensures r == DestinationsFor(dataset, source)
    {
      DestinationsForMeaning(dataset, source);
      if "Logistics" !in dataset {
        return [];
      }
      var all := RawDestinations(dataset, source);
      r := [];
      var i := 0;
      while i < |all|
        invariant i <= |all| && r == Filter(all[..i], d => HasCompleteData(dataset, source, d))
      {
        r := KeepIfComplete(dataset, source, all, i, r);
        i := i + 1;
      }
      assert all[..i] == all;
    }

    /** One destination of `get_destinations_for_source`: kept when the pair is complete. */
    static method KeepIfComplete(dataset: Dataset, source: Cell, all: seq<Cell>, i: nat, r: seq<Cell>)
      returns (r': seq<Cell>)
      requires i < |all| && r == Filter(all[..i], d => HasCompleteData(dataset, source, d))
      ensures r' == Filter(all[..i + 1], d => HasCompleteData(dataset, source, d))
    {
      assert all[..i + 1][..i] == all[..i];
      r' := r;
      if HasCompleteData(dataset, source, all[i]) {
        r' := r + [all[i]];
      }
    }

    /** `get_modes_for_route` */
    function GetModesForRoute(source: Cell, destination: Cell): (r: seq<Cell>)
      reads this
      ensures !isLoaded ==> r == []
      ensures isLoaded ==> r == ModesFor(data, source, destination)
    {
      if !isLoaded || "Logistics" !in data then [] else ModesFor(data, source, destination)
    }

    /** `_get_constraints` */
    method GetConstraints(source: string, destination: string, mode: string, period: int)
      returns (r: seq<ParserConstraint>)
      ensures "Constraints" !in data ==> r == []
      ensures "Constraints" in data ==>
        var rows := ConstraintRows(data["Constraints"]);
        r == ParserConstraintsUpTo(rows, source, destination, mode, period, |rows|)
    {
      if "Constraints" !in data {
        return [];
      }
      r := MatchConstraints(data["Constraints"], source, destination, mode, period);
    }

    /** The row loop of `_get_constraints` over the constraints sheet `t`. */
    static method MatchConstraints(t: Table, source: string, destination: string, mode: string, period: int)
      returns (r: seq<ParserConstraint>)
      ensures r == ParserConstraintsUpTo(ConstraintRows(t), source, destination, mode, period, |t.rows|)
    {
      ghost var rows := ConstraintRows(t);
      r := [];
      var i := 0;
      while i < |t.rows|
        invariant i <= |t.rows| && r == ParserConstraintsUpTo(rows, source, destination, mode, period, i)
      {
        var row := ConstraintRowAt(t, i);
        r := MatchRow(rows, source, destination, mode, period, i, row, r);
        i := i + 1;
      }
    }

    /** One row of `_get_constraints`: keep its description when the row applies. */
    static method MatchRow(ghost rows: seq<ConstraintRow>, source: string, destination: string, mode: string,
                           period: int, i: nat, row: ConstraintRow, r: seq<ParserConstraint>)
      returns (r': seq<ParserConstraint>)
      requires i < |rows| && row == rows[i] && r == ParserConstraintsUpTo(rows, source, destination, mode, period, i)
      ensures r' == ParserConstraintsUpTo(rows, source, destination, mode, period, i + 1)
    {
      r' := r;
      if ParserConstraintApplies(row, source, destination, mode, period) {
        r' := r + [DescribeConstraint(row)];
      }
    }

    /** The metadata's source list, or none when the key was never set. */
    function ListedSources(): seq<Cell>
      reads this
    {
      metadata.sourceIus.GetOr([])
    }

    function ListedPeriods(): seq<real>
      reads this
    {
      metadata.periods.GetOr([])
    }

    /**
     * `validate_selection`: without a dataset the one error says so;
     * otherwise the errors are those `SelectionErrors` lists for the
     * metadata's source and period lists, and the selection is valid
     * exactly when there are none.
     */
    method ValidateSelection(source: Option<string>, destination: Option<string>, mode: Option<string>,
                             period: Option<int>)
      returns (v: Validation)
      ensures !isLoaded ==> v == Validation(false, [NoDataset], [])
      ensures isLoaded ==> v.errors == SelectionErrors(data, ListedSources(), ListedPeriods(), source, destination, mode, period)
      ensures v.valid <==> v.errors == []
      ensures v.warnings == []
    {
      if !isLoaded {
        return Validation(false, [NoDataset], []);
      }
      var badSource := Given(source) && Str(source.value) !in ListedSources();
      var badRoute, badMode := CheckPair(source, destination, mode);
      var badPeriod := GivenPeriod(period) && (period.value as real) !in ListedPeriods();
      var errors := CollectErrors(badSource, badRoute, badMode, badPeriod,
                                  source.GetOr(""), destination.GetOr(""), mode.GetOr(""), period.GetOr(0));
      SelectionErrorsOfChecks(data, ListedSources(), ListedPeriods(), source, destination, mode, period,
                              badSource, badRoute, badMode, badPeriod);
      v := Validation(errors == [], errors, []);
    }

    /** The messages of the failed checks, appended in the validator's order. */
    static method CollectErrors(badSource: bool, badRoute: bool, badMode: bool, badPeriod: bool,
                                source: string, destination: string, mode: string, period: int)
      returns (errors: seq<SelectionError>)
      ensures errors == ErrorList(badSource, badRoute, badMode, badPeriod, source, destination, mode, period)
    {
      errors := [];
      if badSource {
        errors := errors + [UnknownSource(source)];
      }
      if badRoute {
        errors := errors + [UnknownRoute(source, destination)];
      }
      if badMode {
        errors := errors + [UnavailableMode(mode, source, destination)];
      }
      if badPeriod {
        errors := errors + [UnknownPeriod(period)];
      }
    }

    /** The route and mode checks of `validate_selection`, which run only when their arguments are given. */
    method CheckPair(source: Option<string>, destination: Option<string>, mode: Option<string>)
      returns (badRoute: bool, badMode: bool)
      requires isLoaded
      ensures badRoute == (Given(source) && Given(destination) &&
        Str(destination.value) !in DestinationsFor(data, Str(source.value)))
      ensures badMode == (Given(source) && Given(destination) && Given(mode)
        && Str(mode.value) !in ModesFor(data, Str(source.value), Str(destination.value)))
    {
      badRoute := false;
      if Given(source) && Given(destination) {
        var valid := GetDestinationsForSource(Str(source.value));
        badRoute := Str(destination.value) !in valid;
      }
      badMode := false;
      if Given(source) && Given(destination) && Given(mode) {
        var modes := GetModesForRoute(Str(source.value), Str(destination.value));
        badMode := Str(mode.value) !in modes;
      }
    }
  }
}
