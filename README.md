# Clinker network: route-validity index and per-route balance-and-cost calculator

This project models the two computational parts of a clinker supply-chain
planning backend, and proves properties about them:

- **The dataset parser** (`ExcelDataParser`). It loads a folder of CSV files or
  a workbook of sheets into a dataset of named tables. It checks the schema
  contract: the required sheets must be present, and each required sheet must
  carry its configured columns, compared upper-cased after stripping
  whitespace. It then derives metadata: the plant lists, the raw and valid
  source lists, the destinations per source, the transport modes per
  (source, destination) pair, the sorted period list and the row counts. It
  answers destination and mode queries, lists a route's strategic constraints,
  and validates a user's (source, destination, mode, period) selection.
- **The optimizer** (`ClinkerOptimizer`). For one route it gathers the route's
  facts with first-match lookups that answer "N/A" when a fact is absent. It
  filters the strategic constraints that apply to the route, and computes a
  closed-form balance:
  - the required shipment, rounded up to whole vehicle loads;
  - the production, capped at capacity for an IU (producing) plant;
  - both ending inventories, by mass balance;
  - the three-part objective: production, transport and holding cost;
  - the constraint checks;
  - the feasibility verdict, with its ordered list of issues.
- **The composition the HTTP layer performs.** A load hands the parser's
  dataset to the optimizer only on success. A route request is computed only
  after the selection validates.

Layout: `tables.dfy` holds cells, tables, pandas-style masks and lookups,
first-appearance de-duplication, ordered filtering and sorting. `schema.dfy`
holds the sheet configuration, the column check and the sheet classifier.
`route_index.dfy` holds the completeness rule, destinations, modes, periods and
metadata as pure functions. `parser.dfy` holds the parser class, whose loops
are proved equal to those functions. `route_data.dfy` holds the lookups, the
constraint filter and the derived route totals. `milp.dfy` holds the calculator
and its laws. `optimizer.dfy` holds the optimizer class, and `api.dfy` the
validate-then-compute gate.

Modelling choices:

- A cell is `Missing | Num(real) | Str(string)`. A pandas mask `df[col] == key`
  never selects a NaN cell.
- A table is a header plus rows of cells.
- A route key is a pair of cells. The original joins the two codes into the
  string `"src_dst"`, and such keys can collide; `StringKeysCollide` exhibits
  this.
- Quantities are `real`. Ceiling is `-((-x).Floor)`.
- Vehicle capacity is a positive `nat`.

Where the design description and the code disagree, the model follows the
code:

- **A failed load discards the old dataset.** Both loaders empty the dataset
  before reading (`backend/data_parser.py:84`, `backend/data_parser.py:224`).
  The previous dataset is therefore not kept. `is_loaded` is never reset to
  false.
- **The folder loader never checks columns.** Only the workbook loader checks
  that a required sheet carries its columns.
- **Only the first logistics row of a pair is checked for freight.** A later
  row with freight does not make the pair complete
  (`backend/data_parser.py:406`, see `RouteIndex.FirstRowFreightOnly`).
- **A missing demand row for the queried period is not a selection error.** The
  validator checks that the destination has a demand row for some period, and
  that the period appears in the global period list. The missing demand then
  reads as 0 in the calculator.
- **Modes outside the optimizer's table are planned with 30-ton loads.** This
  includes `T3`, which the parser's reference table gives capacity 10000.

## Model

| member | source | states |
|---|---|---|
| Tables.FirstMatch | backend/optimizer.py:188-191 | the selected row matches the mask and no earlier row does; there is none exactly when no row matches |
| Tables.Unique | backend/data_parser.py:310 | `unique()` keeps exactly the values of the input, without duplicates |
| Tables.UniqueInFirstAppearanceOrder | backend/data_parser.py:317 | `unique()` lists the values in order of first appearance |
| Tables.Filter | backend/data_parser.py:387-392 | an order-preserving filter keeps exactly the elements that pass the test, and keeps them distinct when the input is |
| Tables.FilterKeepsOrder | backend/data_parser.py:349-354 | filtering a first-appearance-ordered list leaves it in first-appearance order |
| Tables.SelectUpToMeaning | backend/data_parser.py:384 | `df[mask][col]` holds the column's cell of exactly the matching rows |
| Tables.SortedDistinct | backend/data_parser.py:325 | `sorted(unique(...))` is strictly increasing and holds exactly the input's values |
| Tables.Numbers | backend/data_parser.py:325 | the numeric period values are exactly the column's numeric cells |
| Tables.MapUpToMeaning | backend/data_parser.py:363-367 | the per-source loop's map has exactly the visited keys, each with its computed value |
| Schema.RequiredSheetsAreTheSeven | backend/data_parser.py:19-67 | the required sheets, in configuration order, are the seven mandatory ones; Constraints and HubOpeningStock are optional |
| Schema.SheetNamesDistinct | backend/data_parser.py:19-67 | no two configured sheets share a name |
| Schema.StrippedHeaderMatches | backend/data_parser.py:249-255 | a header padded with Unicode whitespace (a no-break space, an ideographic space) and written in lower case is stripped and still supplies its configured column |
| Schema.MissingColumnsMeaning | backend/data_parser.py:253-257 | a column is reported missing exactly when it is configured and no stripped column matches it upper-cased; none is missing exactly when all match |
| Schema.DetectionMeaning | backend/data_parser.py:182-218 | the classifier answers sheet n exactly when rule n holds on the upper-cased columns and no earlier rule does, trying Logistics, Demand, Capacity, ProductionCost, OpeningStock, ClosingStock, Constraints, IUGUType in that order; it answers nothing exactly when no rule holds |
| Schema.DetectsSheet | backend/data_parser.py:182-218 | the classifier sends the own columns of each of the first eight configured sheets back to that sheet |
| Schema.HubSheetNotDetected | backend/data_parser.py:182-218 | the hub opening-stock columns match no rule |
| Parser.FolderMeaning | backend/data_parser.py:88-104 | a folder load stores each configured sheet whose file exists, with stripped column names, under its sheet name and nothing else; it has no error exactly when every required file exists |
| Parser.MatchedSheetMeaning | backend/data_parser.py:238-244 | the workbook sheet used for an entry is the first whose lower-cased name equals the entry's name or file stem |
| Parser.OutcomeMeaning | backend/data_parser.py:246-268 | a required sheet is stored only when it has every configured column; an optional sheet is stored unchecked; a rejected sheet is required and lacks a column |
| Parser.WorkbookDataMeaning | backend/data_parser.py:238-262 | the workbook load stores exactly the entries whose outcome is "stored", under their configured names |
| Parser.WorkbookSuccessMeaning | backend/data_parser.py:270-297 | success (no error line starts with the error marker) holds exactly when there are no error lines, which holds exactly when every required sheet is found with all its columns |
| Parser.ParserConstraintsMeaning | backend/data_parser.py:604-629 | `_get_constraints` lists exactly the rows whose IU, mode and destination are NaN or equal to the selection and whose period matches, one entry per row |
| Parser.ErrorListMembers | backend/data_parser.py:740-758 | each selection error is reported exactly when its check fails, and no other error appears |
| Parser.ErrorListOrdered | backend/data_parser.py:740-758 | errors come in the order source, route, mode, period, at most one of each |
| Parser.SelectionErrorsOfChecks | backend/data_parser.py:740-758 | the route check against the valid-destination list equals the completeness test |
| Parser.ExcelDataParser.constructor | backend/data_parser.py:76-80 | a new parser has no data, empty metadata, is not loaded and has no errors |
| Parser.ExcelDataParser.LoadFromFolder | backend/data_parser.py:82-112 | the new dataset is the folder's sheets and the old one is discarded; the errors are the missing required files; `is_loaded` becomes true on success and is never reset; metadata is extracted only on success |
| Parser.ExcelDataParser.ReadFolder | backend/data_parser.py:90-102 | the file loop yields the stored sheets and the missing-file errors of the folder specification |
| Parser.ExcelDataParser.FindSheet | backend/data_parser.py:240-244 | the name-matching loop finds the first matching sheet |
| Parser.ExcelDataParser.LoadFromExcel | backend/data_parser.py:220-302 | the new dataset is the stored sheets and the old one is discarded; the errors are the marked problem lines plus the help block; success means no marked line; the result lists the found and required sheets |
| Parser.ExcelDataParser.ScanWorkbook | backend/data_parser.py:238-268 | the first pass yields the stored sheets, the missing-sheet list and the invalid-column list |
| Parser.ExcelDataParser.ClassifySheet | backend/data_parser.py:240-268 | one entry is found, column-stripped and checked as its outcome specifies |
| Parser.ExcelDataParser.ReportProblems | backend/data_parser.py:271-276 | one marked line lists the missing sheets, followed by one marked line per invalid sheet |
| Parser.ExcelDataParser.AppendHelp | backend/data_parser.py:287-291 | the help block lists each required sheet with its file and columns |
| Parser.ExcelDataParser.ValidateCompleteDataset | backend/data_parser.py:136-154 | the required sheets split, in configuration order, into present and missing; complete holds exactly when none is missing; loaded count plus missing count equals the required total of 7 |
| Parser.ExcelDataParser.ExtractMetadata | backend/data_parser.py:304-339 | the metadata is the plant lists, logistics lists, periods, row counts and route index, with the source list filtered |
| Parser.ExcelDataParser.FilterSourcesWithCompleteData | backend/data_parser.py:341-356 | the source list is narrowed to the sources with a valid destination, and both counts are recorded |
| Parser.ExcelDataParser.KeepServedSources | backend/data_parser.py:347-352 | the source loop keeps exactly the sources with a valid destination, in order |
| Parser.ExcelDataParser.BuildRouteIndex | backend/data_parser.py:358-376 | routes-by-source and modes-by-route are the index functions of the logistics sheet |
| Parser.ExcelDataParser.IndexModes | backend/data_parser.py:370-376 | the mode loop opens a list per new pair and appends each mode not yet listed |
| Parser.ExcelDataParser.GetDestinationsForSource | backend/data_parser.py:378-392 | the result is empty when not loaded, and otherwise the source's complete destinations |
| Parser.ExcelDataParser.CompleteDestinations | backend/data_parser.py:383-392 | the destination loop keeps exactly the raw destinations that pass the completeness test |
| Parser.ExcelDataParser.GetModesForRoute | backend/data_parser.py:451-459 | the result is empty when not loaded, and otherwise the pair's distinct transport codes |
| Parser.ExcelDataParser.GetConstraints | backend/data_parser.py:604-629 | the result is no constraints without the sheet, and otherwise the applying rows in sheet order |
| Parser.ExcelDataParser.MatchConstraints | backend/data_parser.py:613-627 | the row loop appends the description of each applying row |
| Parser.ExcelDataParser.ValidateSelection | backend/data_parser.py:726-760 | when not loaded there is exactly one "no dataset" error; otherwise the errors are those of the four checks, each run only on given inputs; valid holds exactly when there are no errors |
| Parser.ExcelDataParser.CollectErrors | backend/data_parser.py:740-758 | the failed checks' messages are appended in the fixed order |
| Parser.ExcelDataParser.CheckPair | backend/data_parser.py:744-754 | the route check fails when the destination is not a valid destination of the source; the mode check fails when the mode is not among the pair's modes |
| RouteIndex.CompleteDataMeaning | backend/data_parser.py:394-449 | a pair is complete exactly when the logistics sheet has a freight column and the pair's first row has a freight cost, the production-cost and capacity sheets each have a row for the source (under IU CODE when the sheet has that column, else under IUGU CODE), and the demand sheet has a row for the destination; neither code of a complete pair is empty |
| RouteIndex.FirstRowFreightOnly | backend/data_parser.py:400-408 | a pair whose first row lacks freight is incomplete even when a later row has freight |
| RouteIndex.DestinationsForMeaning | backend/data_parser.py:378-392 | the valid destinations are exactly the complete pairs' destinations, distinct, in first-appearance order; none without a logistics sheet |
| RouteIndex.CompleteIsRawDestination | backend/data_parser.py:384-390 | every complete destination appears among the source's raw destinations |
| RouteIndex.ModesFor | backend/data_parser.py:451-459 | the modes are distinct and are exactly the transport codes of the pair's rows, with no completeness filtering |
| RouteIndex.ModesIndexListsDistinct | backend/data_parser.py:370-376 | every mode list in modes-by-route is duplicate-free |
| RouteIndex.ModesIndexAgrees | backend/data_parser.py:370-376 | modes-by-route has a pair exactly when the pair has rows, and lists the same modes as `get_modes_for_route`, in first-appearance order |
| RouteIndex.StringKeysCollide | backend/data_parser.py:372 | two different pairs can share one `"src_dst"` string key |
| RouteIndex.RoutesLoopBuildsMap | backend/data_parser.py:363-367 | the routes-by-source loop builds, for every distinct source, its distinct destinations |
| RouteIndex.RoutesBySourceListsRawDestinations | backend/data_parser.py:363-367 | routes-by-source lists a source's raw destinations, a superset of its valid destinations |
| RouteIndex.PeriodsMeaning | backend/data_parser.py:323-327 | periods are strictly ascending and come from Logistics, falling back to Demand only when Logistics is absent |
| RouteIndex.ListedSourcesHaveDestinations | backend/data_parser.py:341-356 | the listed sources are exactly the raw sources with a valid destination, in first-appearance order; valid count equals list length and is at most the raw count |
| RouteIndex.PlantsOfTypeMeaning | backend/data_parser.py:311-312 | the IU and GU plant lists hold exactly the plants of that type, once each |
| RouteFacts.LookupMeaning | backend/optimizer.py:184-194 | a lookup is N/A exactly when the sheet is absent, the column is absent, no row matches, or the first match is NaN; otherwise it is the first match's value |
| RouteFacts.NumOr | backend/optimizer.py:196-202 | `_num` gives a found number itself, and the default for N/A or a non-numeric value |
| RouteFacts.LimitOr | backend/optimizer.py:415-417 | a closing maximum is unbounded unless it is a number |
| RouteFacts.StrategicUpToMeaning | backend/optimizer.py:300-324 | a constraint is listed exactly when some applying row describes it, at most one per row |
| RouteFacts.StrategicConstraintsApply | backend/optimizer.py:300-324 | each listed constraint comes from a row with the route's IU and period, and its mode and destination are empty or the route's own |
| RouteFacts.DerivedFieldsMeaning | backend/optimizer.py:326-362 | in the record `get_route_data` returns, the logistics and delivered costs are N/A unless their parts are numbers, and are otherwise their sums; the trips are the least multiplier-sized loads covering demand, and 0 unless demand and a positive multiplier are both numbers; the transport cost is (freight + handling) times demand and each stock gap is opening stock minus minimum closing stock, 0 when a part is missing; the fulfilment check holds exactly when all four inputs are numbers and capacity plus opening stock reaches demand plus the minimum closing stock |
| Optimizer.ClinkerOptimizer.LoadData | backend/optimizer.py:159-163 | the optimizer adopts the dataset and is loaded |
| Optimizer.ClinkerOptimizer.GetRouteData | backend/optimizer.py:204-395 | the route data are the lookups and the constraints the filter loop collects |
| Optimizer.ClinkerOptimizer.CollectStrategic | backend/optimizer.py:301-324 | the row loop appends exactly the applying constraints, in sheet order |
| Optimizer.ClinkerOptimizer.CalculateMilpSolution | backend/optimizer.py:397-693 | the solution is the calculator applied to the route's facts |
| Optimizer.ClinkerOptimizer.GetAllDataForRoute | backend/optimizer.py:736-738 | the entry point returns the calculator's solution |
| Milp.VehicleCapacity | backend/optimizer.py:420 | vehicle capacity is always positive |
| Milp.InputDefaults | backend/optimizer.py:404-417 | each of the thirteen inputs is the found number, and otherwise 0, 1 for the quantity multiplier, or unbounded for the two closing maxima |
| Milp.ShipmentRounding | backend/optimizer.py:430-440 | the required shipment is the floored shortfall; when positive, the shipment is trips times capacity, covers it, and overshoots by less than one load; otherwise nothing ships; excess is never negative |
| Milp.LoadsCoverRequirement | backend/optimizer.py:435-437 | the trip count is at least 1, its loads cover the requirement, and less than one load is spare |
| Milp.ProductionLaw | backend/optimizer.py:446-461 | a non-IU source produces 0 with no violation; an IU source produces the floored requirement, capped at a positive capacity, with the surplus requirement as the violation |
| Milp.EndingInventories | backend/optimizer.py:426-466 | the shipment cancels across the two plants, so their ending stocks add up to both opening stocks plus production minus both demands; a destination with a shortfall ends at its safety stock plus the rounding excess, one without keeps its own surplus and receives nothing; an IU source that must produce ends at its safety stock less exactly the capacity violation, and one that need not produce stays at or above it |
| Milp.DestinationSafetyStockMet | backend/optimizer.py:427-431 | the destination always ends at or above its safety stock |
| Milp.SourceSafetyStockMet | backend/optimizer.py:442-461 | an IU source with no capacity violation ends at or above its safety stock |
| Milp.ShipmentMonotone | backend/optimizer.py:430-440 | raising destination demand never lowers the required shipment, the trips or the shipment |
| Milp.LoadsMonotone | backend/optimizer.py:435-436 | a larger requirement never needs fewer trips |
| Milp.ObjectiveDecomposition | backend/optimizer.py:518-539 | the total is production cost times P, plus (freight + handling) times X, plus h times the excess over safety stock at both nodes; h is 1% of a positive production cost, else 0; cost per ton times demand equals the total when demand is positive, and is 0 otherwise |
| Milp.ObjectiveNonNegative | backend/optimizer.py:518-535 | with non-negative rates the objective is non-negative |
| Milp.NetworkConservation | backend/optimizer.py:589-614 | the conservation law of `Milp.EndingInventories` carried over to the reported mass balance: the source's outbound and the destination's inbound are both the shipment (by the node definitions), and the two reported ending stocks add up to both opening stocks plus production minus both demands |
| Milp.ChecksThatAlwaysHold | backend/optimizer.py:627-651 | the shipment bound always holds; an unbounded destination is within its bounds |
| Milp.FeasibilityVerdict | backend/optimizer.py:472-474 | feasible holds exactly when both safety-stock checks pass and there is no violation, which holds exactly when no issue is listed; each issue is present exactly when its condition holds, in the order capacity, source, destination; the reported violation equals the violation |
| Milp.FeasibilityIgnoresMaxima | backend/optimizer.py:471-474 | the closing-stock maxima affect neither the decisions nor the verdict |
| Milp.SolutionInvariants | backend/optimizer.py:397-693 | every solution balances, meets the destination's safety stock, ships whole loads that cover the requirement, and is feasible exactly when no issue is listed |
| Milp.UnknownModeCapacity | backend/optimizer.py:420 | a mode outside the table is planned with 30-ton loads |
| Milp.SeaCapacityDisagrees | backend/data_parser.py:70-74 | T3 is planned with 30-ton loads although the parser lists it at 10000 |
| Milp.MissingCapacityMeansNoCap | backend/optimizer.py:409 | a missing capacity reads as 0, which disables the cap, so no capacity issue is raised while the capacity check fails |
| Milp.RoadExampleFeasible | backend/optimizer.py:426-474 | the road example ships 7 trucks (210 t), produces 160 t, ends both plants at safety stock, and is feasible |
| Milp.RoadExampleOverCapacity | backend/optimizer.py:451-477 | with capacity 100, production is capped at 100, the violation is 60, and the capacity and source issues are listed in that order |
| Api.UploadWorkbook | backend/api.py:74-78 | the parser holds the workbook's sheets, errors and metadata; the upload succeeds exactly when the workbook yields no error line; the optimizer adopts the parser's dataset only then, and otherwise keeps its own |
| Api.LoadFolder | backend/api.py:136-140 | the parser holds the folder's sheets, errors and metadata; the load succeeds exactly when no required file is missing; the optimizer adopts the parser's dataset only then, and otherwise keeps its own |
| Api.GetRoute | backend/api.py:298-334 | a route request without a dataset or with a missing argument is refused; otherwise it returns the validator's errors, or the optimizer's solution when there are none |
| Api.ValidatedSelection | backend/api.py:319-328 | a selection that validates names a listed source and period, a complete pair, and one of the pair's modes |

## Left out

- File and spreadsheet reading (`pd.read_csv`, `pd.ExcelFile`, `read_excel`, `Path.exists`) and the exception branches of both loaders. A folder is given as a map from file name to table, and a workbook as its sheets in order.
- `_map_filename_to_sheet`, which is not used by either loader; `load_single_csv`, which returns a constant refusal; and `get_mathematical_model`, a static description.
- `_ensure_numeric_columns`. Cells arrive already tagged as number, text or missing. A text cell in a numeric column reads as non-numeric (the default in `_num`, 0 for a constraint value) instead of being coerced to NaN first.
- Aliasing: the optimizer receives the parser's dictionary by reference, and its numeric coercion changes the parser's tables in place. The model copies the dataset as a value.
- A mask over a column that a sheet lacks raises `KeyError` in the original. The model reads the absent column as NaN.
- The parser's own `get_route_data` with its lookup helpers `_get_capacity`, `_get_production_cost`, `_get_demand`, `_get_opening_stock`, `_get_min_close_stock` and `_get_max_close_stock`, and `_compute_route_metrics` (demand volatility, emission factors). The optimizer's `get_route_data` is modelled instead.
- Display fields: `round(..., 2)`, formula and equation strings, `to_dict`, utilisation percentages and the performance-metrics block with its infinite days of supply.
- `get_all_routes_summary`, `get_demand_summary` and `get_capacity_summary`: grouped sums with no validation.
- MissingColumnsMeaning: `str.upper()` and `str.lower()` are modelled on the ASCII letters only (`Upper`, `Lower`, also used for sheet names). A header whose non-ASCII letters Python case-maps (`é` to `É`, `ß` to `SS`) can match a configured column in the original and not in the model. Stripping does cover every character `str.isspace` accepts.
- PeriodsMeaning: the period list keeps only the numeric cells of `TIME PERIOD`, so it is always strictly increasing. The original sorts every unique value. A NaN period stays in the list, and `sorted` then gives no defined order. A column of text periods is sorted as strings. A mix of text and numbers raises `TypeError`. `load_from_folder` does not catch it, so the request fails. `load_from_excel` catches it and reports failure, although `is_loaded` is already true. In all three cases the model reports a successful load with a numeric list.
- Numbers: keeps the `Num` cells of a column and drops NaN and text cells; `RouteIndex.PeriodsOf` relies on it, with the gap described for PeriodsMeaning.
- Floating point: every quantity is an exact real, so the 0.01 tolerance is kept but rounding error is not modelled.
- Parser.ExcelDataParser.ValidateSelection: a period is compared as an exact real against the period list; Python's mixed int/float equality is not modelled beyond that.
- The HTTP surface of the API (request parsing, file saving, JSON responses, other endpoints). Only the load hand-over and the validate-then-compute order are modelled.
- Module-level singleton instances. The parser and optimizer are passed explicitly.
