/**
 * The schema contract: which sheets a dataset has, which of them are
 * required, which columns each required sheet must carry, and the
 * column-based sheet classifier.
 */
module Schema {
  import opened Tables

  datatype SheetSpec = SheetSpec(name: string, file: string, columns: seq<string>, required: bool)

  /** `SHEET_CONFIG`, in its declaration order (Python dicts keep insertion order). */
  const SheetConfig: seq<SheetSpec> := [
    SheetSpec("IUGUType", "IUGUType.csv", ["IUGU CODE", "PLANT TYPE"], true),
    SheetSpec("Logistics", "LogisticsIUGU.csv",
      ["FROM IU CODE", "TO IUGU CODE", "TRANSPORT CODE", "TIME PERIOD",
       "FREIGHT COST", "HANDLING COST", "QUANTITY MULTIPLIER"], true),
    SheetSpec("Demand", "ClinkerDemand.csv", ["IUGU CODE", "TIME PERIOD", "DEMAND"], true),
    SheetSpec("Capacity", "ClinkerCapacity.csv", ["IU CODE", "TIME PERIOD", "CAPACITY"], true),
    SheetSpec("ProductionCost", "ProductionCost.csv", ["IU CODE", "TIME PERIOD", "PRODUCTION COST"], true),
    SheetSpec("OpeningStock", "IUGUOpeningStock.csv", ["IUGU CODE", "OPENING STOCK"], true),
    SheetSpec("ClosingStock", "IUGUClosingStock.csv",
      ["IUGU CODE", "TIME PERIOD", "MIN CLOSE STOCK", "MAX CLOSE STOCK"], true),
    SheetSpec("Constraints", "IUGUConstraint.csv",
      ["IU CODE", "TRANSPORT CODE", "IUGU CODE", "TIME PERIOD", "BOUND TYPEID", "VALUE TYPEID", "Value"], false),
    SheetSpec("HubOpeningStock", "HubOpeningStock.csv", ["IU", "IUGU", "Opening Stock"], false)
  ]

  datatype TransportInfo = TransportInfo(name: string, vehicleCapacity: nat)

  /** The parser's `TRANSPORT_INFO` reference table (emission factors are not modelled). */
  const ParserTransportInfo: map<string, TransportInfo> := map[
    "T1" := TransportInfo("Road", 30),
    "T2" := TransportInfo("Rail", 3000),
    "T3" := TransportInfo("Sea", 10000)
  ]

  /** The names of the required sheets, in configuration order (first `k` entries). */
  function RequiredNamesUpTo(k: nat): (r: seq<string>)
    requires k <= |SheetConfig|
    ensures |r| <= k
    ensures forall n :: n in r <==> exists j :: 0 <= j < k && SheetConfig[j].required && SheetConfig[j].name == n
  {
    if k == 0 then []
    else if SheetConfig[k - 1].required then RequiredNamesUpTo(k - 1) + [SheetConfig[k - 1].name]
    else RequiredNamesUpTo(k - 1)
  }

  function RequiredSheetNames(): seq<string> {
    RequiredNamesUpTo(|SheetConfig|)
  }

  lemma RequiredSheetsAreTheSeven()
    ensures RequiredSheetNames() ==
      ["IUGUType", "Logistics", "Demand", "Capacity", "ProductionCost", "OpeningStock", "ClosingStock"]
  {
    assert RequiredNamesUpTo(1) == ["IUGUType"];
    assert RequiredNamesUpTo(7) == RequiredNamesUpTo(6) + ["ClosingStock"];
    assert RequiredNamesUpTo(9) == RequiredNamesUpTo(7);
  }

  /** No two entries of a configuration share a sheet name. */
  predicate DistinctNames(config: seq<SheetSpec>) {
    forall i, j :: 0 <= i < j < |config| ==> config[i].name != config[j].name
  }

  lemma SheetNamesDistinct()
    ensures DistinctNames(SheetConfig)
  {
  }

  /** `file.replace('.csv', '')` for a file name that ends in `.csv` once. */
  function Stem(file: string): string {
    if |file| >= 4 && file[|file| - 4..] == ".csv" then file[..|file| - 4] else file
  }

  /** A workbook sheet called `sheet` stands for `spec`: its name or its file stem, ignoring case. */
  predicate SheetNameMatches(sheet: string, spec: SheetSpec) {
    Lower(sheet) == Lower(spec.name) || Lower(sheet) == Lower(Stem(spec.file))
  }

  /** `col.upper() in {c.upper() for c in df.columns}` */
  predicate HasColumnIgnoringCase(columns: seq<string>, col: string) {
    exists c :: c in columns && Upper(c) == Upper(col)
  }

  /** The configured columns a sheet lacks, in configuration order. */
  function MissingColumns(required: seq<string>, columns: seq<string>): seq<string> {
    Filter(required, col => !HasColumnIgnoringCase(columns, col))
  }

  /** The missing columns are the required ones no column matches ignoring case; there are none exactly when all match. */
  lemma MissingColumnsMeaning(required: seq<string>, columns: seq<string>)
    ensures forall col :: col in MissingColumns(required, columns) <==> col in required && !HasColumnIgnoringCase(columns, col)
    ensures MissingColumns(required, columns) == [] <==> forall col :: col in required ==> HasColumnIgnoringCase(columns, col)
  {
    var r := MissingColumns(required, columns);
    assert r != [] ==> r[0] in r;
  }

  /**
   * Headers are stripped of Unicode whitespace before the check: a header
   * padded with a no-break space, in lower case, still supplies its column.
   */
  lemma StrippedHeaderMatches()
    ensures Strip("\U{A0}Demand\U{3000}") == "Demand"
    ensures MissingColumns(["DEMAND"], [Strip("\U{A0}Demand\U{3000}")]) == []
  {
    var padded := "\U{A0}Demand\U{3000}";
    assert IsSpace(padded[0]) && padded[1..] == "Demand\U{3000}";
    assert !IsSpace("Demand\U{3000}"[0]);
    assert TrimStart(padded) == "Demand\U{3000}";
    assert IsSpace("Demand\U{3000}"[6]) && "Demand\U{3000}"[..6] == "Demand";
    assert !IsSpace("Demand"[5]);
    assert TrimEnd("Demand\U{3000}") == "Demand";
    assert Upper("Demand") == "DEMAND";
    assert HasColumnIgnoringCase(["Demand"], "DEMAND");
  }

  /** Some column, upper-cased, is `name`. */
  predicate HasUpper(columns: seq<string>, name: string) {
    name in UpperAll(columns)
  }

  /** Every column name, upper-cased. */
  function UpperAll(columns: seq<string>): (r: seq<string>)
    ensures |r| == |columns|
    ensures forall i :: 0 <= i < |columns| ==> r[i] == Upper(columns[i])
  {
    seq(|columns|, i requires 0 <= i < |columns| => Upper(columns[i]))
  }

  /** The sheets `_detect_sheet_from_columns` can recognise, in the order its rules are tried. */
  const DetectionOrder: seq<string> :=
    ["Logistics", "Demand", "Capacity", "ProductionCost", "OpeningStock", "ClosingStock", "Constraints", "IUGUType"]

  /** Rule `k` of the classifier: the upper-cased columns include what identifies sheet `DetectionOrder[k]`. */
  predicate RuleHolds(k: nat, columns: seq<string>) {
    match k
    case 0 => HasUpper(columns, "FROM IU CODE") && HasUpper(columns, "TO IUGU CODE") && HasUpper(columns, "FREIGHT COST")
    case 1 => HasUpper(columns, "DEMAND") && HasUpper(columns, "IUGU CODE")
    case 2 => HasUpper(columns, "CAPACITY") && HasUpper(columns, "IU CODE")
    case 3 => HasUpper(columns, "PRODUCTION COST") && HasUpper(columns, "IU CODE")
    case 4 => HasUpper(columns, "OPENING STOCK") && HasUpper(columns, "IUGU CODE")
    case 5 => (HasUpper(columns, "MIN CLOSE STOCK") || HasUpper(columns, "MAX CLOSE STOCK")) && HasUpper(columns, "IUGU CODE")
    case 6 => HasUpper(columns, "BOUND TYPEID") && HasUpper(columns, "VALUE TYPEID")
    case 7 => HasUpper(columns, "PLANT TYPE") && HasUpper(columns, "IUGU CODE")
    case _ => false
  }

  /** `_detect_sheet_from_columns`: the rules are tried in order and the first that holds names the sheet. */
  function DetectSheetFromColumns(columns: seq<string>): Option<string> {
    if RuleHolds(0, columns) then Some("Logistics")
    else if RuleHolds(1, columns) then Some("Demand")
    else if RuleHolds(2, columns) then Some("Capacity")
    else if RuleHolds(3, columns) then Some("ProductionCost")
    else if RuleHolds(4, columns) then Some("OpeningStock")
    else if RuleHolds(5, columns) then Some("ClosingStock")
    else if RuleHolds(6, columns) then Some("Constraints")
    else if RuleHolds(7, columns) then Some("IUGUType")
    else None
  }

  /**
   * The classifier answers sheet `DetectionOrder[k]` exactly when rule `k`
   * holds and no earlier rule does, and answers nothing exactly when no
   * rule holds.
   */
  lemma DetectionMeaning(columns: seq<string>)
    ensures DetectSheetFromColumns(columns).None? <==>
      forall k :: 0 <= k < |DetectionOrder| ==> !RuleHolds(k, columns)
    ensures forall k :: 0 <= k < |DetectionOrder| ==>
      (DetectSheetFromColumns(columns) == Some(DetectionOrder[k]) <==>
         RuleHolds(k, columns) && forall j :: 0 <= j < k ==> !RuleHolds(j, columns))
  {
  }

  /** The configured column names are upper case already, except the constraints sheet's "Value". */
  lemma ConfiguredColumnsUpperCased()
    ensures Upper("IUGU CODE") == "IUGU CODE" && Upper("IU CODE") == "IU CODE"
    ensures Upper("PLANT TYPE") == "PLANT TYPE" && Upper("TIME PERIOD") == "TIME PERIOD"
    ensures Upper("FROM IU CODE") == "FROM IU CODE" && Upper("TO IUGU CODE") == "TO IUGU CODE"
    ensures Upper("TRANSPORT CODE") == "TRANSPORT CODE" && Upper("FREIGHT COST") == "FREIGHT COST"
    ensures Upper("HANDLING COST") == "HANDLING COST" && Upper("QUANTITY MULTIPLIER") == "QUANTITY MULTIPLIER"
    ensures Upper("DEMAND") == "DEMAND" && Upper("CAPACITY") == "CAPACITY" && Upper("PRODUCTION COST") == "PRODUCTION COST"
    ensures Upper("OPENING STOCK") == "OPENING STOCK"
    ensures Upper("MIN CLOSE STOCK") == "MIN CLOSE STOCK" && Upper("MAX CLOSE STOCK") == "MAX CLOSE STOCK"
    ensures Upper("BOUND TYPEID") == "BOUND TYPEID" && Upper("VALUE TYPEID") == "VALUE TYPEID"
    ensures Upper("Value") == "VALUE"
  {
  }

  /** The classifier sends the configured columns of each of the first eight sheets back to that sheet. */
  lemma DetectsSheet(k: nat)
    requires k < 8
    ensures DetectSheetFromColumns(SheetConfig[k].columns) == Some(SheetConfig[k].name)
  {
    ConfiguredColumnsUpperCased();
    var cols := SheetConfig[k].columns;
    if k == 0 {
      assert UpperAll(cols) == ["IUGU CODE", "PLANT TYPE"];
      DetectsPlantTypeColumns(cols);
    } else if k == 1 {
      assert UpperAll(cols)[0] == "FROM IU CODE" && UpperAll(cols)[1] == "TO IUGU CODE";
      assert UpperAll(cols)[4] == "FREIGHT COST";
    } else if k == 2 {
      assert UpperAll(cols) == ["IUGU CODE", "TIME PERIOD", "DEMAND"];
    } else if k == 3 {
      assert UpperAll(cols) == ["IU CODE", "TIME PERIOD", "CAPACITY"];
    } else if k == 4 {
      assert UpperAll(cols) == ["IU CODE", "TIME PERIOD", "PRODUCTION COST"];
    } else if k == 5 {
      assert UpperAll(cols) == ["IUGU CODE", "OPENING STOCK"];
    } else if k == 6 {
      assert UpperAll(cols) == ["IUGU CODE", "TIME PERIOD", "MIN CLOSE STOCK", "MAX CLOSE STOCK"];
      DetectsClosingStockColumns(cols);
    } else {
      assert UpperAll(cols) ==
        ["IU CODE", "TRANSPORT CODE", "IUGU CODE", "TIME PERIOD", "BOUND TYPEID", "VALUE TYPEID", "VALUE"];
      DetectsConstraintsColumns(cols);
    }
  }

  /** The plant-type columns fail every rule but the last. */
  lemma DetectsPlantTypeColumns(cols: seq<string>)
    requires UpperAll(cols) == ["IUGU CODE", "PLANT TYPE"]
    ensures DetectSheetFromColumns(cols) == Some("IUGUType")
  {
    assert !HasUpper(cols, "FROM IU CODE") && !HasUpper(cols, "DEMAND") && !HasUpper(cols, "CAPACITY");
    assert !HasUpper(cols, "PRODUCTION COST") && !HasUpper(cols, "OPENING STOCK");
    assert !HasUpper(cols, "MIN CLOSE STOCK") && !HasUpper(cols, "MAX CLOSE STOCK") && !HasUpper(cols, "BOUND TYPEID");
    assert HasUpper(cols, "PLANT TYPE") && HasUpper(cols, "IUGU CODE");
  }

  /** Closing-stock columns carry both stock limits, so the closing-stock rule is the first to hold. */
  lemma DetectsClosingStockColumns(cols: seq<string>)
    requires UpperAll(cols) == ["IUGU CODE", "TIME PERIOD", "MIN CLOSE STOCK", "MAX CLOSE STOCK"]
    ensures DetectSheetFromColumns(cols) == Some("ClosingStock")
  {
    assert !HasUpper(cols, "FROM IU CODE") && !HasUpper(cols, "DEMAND") && !HasUpper(cols, "CAPACITY");
    assert !HasUpper(cols, "PRODUCTION COST") && !HasUpper(cols, "OPENING STOCK");
    assert HasUpper(cols, "MIN CLOSE STOCK") && HasUpper(cols, "IUGU CODE");
  }

  /** Columns that read like the constraints sheet's fail the six earlier rules and meet the seventh. */
  lemma DetectsConstraintsColumns(cols: seq<string>)
    requires UpperAll(cols) ==
      ["IU CODE", "TRANSPORT CODE", "IUGU CODE", "TIME PERIOD", "BOUND TYPEID", "VALUE TYPEID", "VALUE"]
    ensures DetectSheetFromColumns(cols) == Some("Constraints")
  {
    assert !HasUpper(cols, "FROM IU CODE");
    assert !HasUpper(cols, "DEMAND");
    assert !HasUpper(cols, "CAPACITY");
    assert !HasUpper(cols, "PRODUCTION COST");
    assert !HasUpper(cols, "OPENING STOCK");
    assert !HasUpper(cols, "MIN CLOSE STOCK") && !HasUpper(cols, "MAX CLOSE STOCK");
    assert HasUpper(cols, "BOUND TYPEID") && HasUpper(cols, "VALUE TYPEID");
  }

  /** The hub opening-stock sheet's columns match no rule. */
  lemma HubSheetNotDetected()
    ensures DetectSheetFromColumns(SheetConfig[8].columns) == None
  {
  }
}
