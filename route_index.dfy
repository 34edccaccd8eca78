/**
 * The route-validity index the parser derives from a loaded dataset: the
 * four-part completeness test for a (source, destination) pair, the valid
 * destinations of a source, the transport modes of a pair, the per-source
 * route lists, the sorted period list and the metadata record built from
 * them.  Everything here is a pure function of the dataset; the parser class
 * computes the same values with loops and is proved equal to them.
 */
module RouteIndex {
  import opened Tables

  const FromCol := "FROM IU CODE"
  const ToCol := "TO IUGU CODE"
  const ModeCol := "TRANSPORT CODE"
  const PeriodCol := "TIME PERIOD"
  const FreightCol := "FREIGHT COST"

  /** The logistics mask of one (source, destination) pair. */
  function RouteConds(s: Cell, d: Cell): seq<Cond> {
    [Eq(FromCol, s), Eq(ToCol, d)]
  }

  // ---------------------------------------------------------------------------
  // The completeness test of one pair
  // ---------------------------------------------------------------------------

  /** (1) The pair has a logistics row, and the first such row carries a freight cost. */
  predicate FirstRouteRowHasFreight(data: Dataset, s: Cell, d: Cell) {
    && "Logistics" in data
    && var l := data["Logistics"];
       match FirstMatch(l, RouteConds(s, d))
       case None => false
       case Some(i) => FreightCol in l.columns && CellAt(l, i, FreightCol) != Missing
  }

  /** (2), (3) The sheet has a row for the plant, keyed by `IU CODE` if present, else by `IUGU CODE`. */
  predicate HasPlantRow(data: Dataset, sheet: string, code: Cell) {
    && sheet in data
    && if "IU CODE" in data[sheet].columns then AnyMatch(data[sheet], [Eq("IU CODE", code)])
       else "IUGU CODE" in data[sheet].columns && AnyMatch(data[sheet], [Eq("IUGU CODE", code)])
  }

  /** (4) The demand sheet has a row for the destination. */
  predicate HasDemandRow(data: Dataset, d: Cell) {
    && "Demand" in data
    && "IUGU CODE" in data["Demand"].columns
    && AnyMatch(data["Demand"], [Eq("IUGU CODE", d)])
  }

  /** `_has_complete_data`: everything the calculator needs is on file for the pair. */
  predicate HasCompleteData(data: Dataset, s: Cell, d: Cell) {
    && FirstRouteRowHasFreight(data, s, d)
    && HasPlantRow(data, "ProductionCost", s)
    && HasPlantRow(data, "Capacity", s)
    && HasDemandRow(data, d)
  }

  /** A row the route mask selects has the pair's codes in its code columns. */
  lemma RouteRowHasCodes(l: Table, i: nat, s: Cell, d: Cell)
    requires i < |l.rows| && RowMatches(l, i, RouteConds(s, d))
    ensures s != Missing && d != Missing
    ensures CellAt(l, i, FromCol) == s && CellAt(l, i, ToCol) == d
    ensures RowMatches(l, i, [Eq(FromCol, s)])
  {
    RowMatches2(l, i, Eq(FromCol, s), Eq(ToCol, d));
    RowMatches1(l, i, Eq(FromCol, s));
  }

  /** Some row holds `key` in column `col` (a NaN key matches no row). */
  predicate HasRowWith(t: Table, col: string, key: Cell) {
    key != Missing && exists j :: 0 <= j < |t.rows| && CellAt(t, j, col) == key
  }

  /** `not df[df[col] == key].empty` */
  lemma AnyMatchMeaning(t: Table, col: string, key: Cell)
    ensures AnyMatch(t, [Eq(col, key)]) <==> HasRowWith(t, col, key)
  {
    if AnyMatch(t, [Eq(col, key)]) {
      RowMatches1(t, FirstMatch(t, [Eq(col, key)]).value, Eq(col, key));
    }
    if HasRowWith(t, col, key) {
      var j :| 0 <= j < |t.rows| && CellAt(t, j, col) == key;
      RowMatches1(t, j, Eq(col, key));
    }
  }

  /** A plant row keyed by `IU CODE` when the sheet has that column, else by `IUGU CODE`. */
  lemma PlantRowMeaning(t: Table, code: Cell)
    ensures (if "IU CODE" in t.columns then AnyMatch(t, [Eq("IU CODE", code)])
             else "IUGU CODE" in t.columns && AnyMatch(t, [Eq("IUGU CODE", code)]))
      <==> (if "IU CODE" in t.columns then HasRowWith(t, "IU CODE", code) else HasRowWith(t, "IUGU CODE", code))
  {
    AnyMatchMeaning(t, "IU CODE", code);
    AnyMatchMeaning(t, "IUGU CODE", code);
    if HasRowWith(t, "IUGU CODE", code) {
      var j :| 0 <= j < |t.rows| && CellAt(t, j, "IUGU CODE") == code;
      ColumnIndexMeaning(t.columns, "IUGU CODE");
    }
  }

  /**
   * The four parts spelled out on rows: a pair is complete exactly when the
   * logistics sheet has a freight column and the pair's first row has a
   * freight cost, the production-cost and capacity sheets each have a row
   * for the source (under `IU CODE` when the sheet has that column, else
   * under `IUGU CODE`), and the demand sheet has a row for the destination.
   * Neither code of a complete pair is empty.
   */
  lemma CompleteDataMeaning(data: Dataset, s: Cell, d: Cell)
    ensures HasCompleteData(data, s, d) <==>
      && "Logistics" in data && FreightCol in data["Logistics"].columns
      && (exists i: nat :: IsFirstMatch(data["Logistics"], RouteConds(s, d), i)
            && CellAt(data["Logistics"], i, FreightCol) != Missing)
      && "ProductionCost" in data
      && (if "IU CODE" in data["ProductionCost"].columns then HasRowWith(data["ProductionCost"], "IU CODE", s)
          else HasRowWith(data["ProductionCost"], "IUGU CODE", s))
      && "Capacity" in data
      && (if "IU CODE" in data["Capacity"].columns then HasRowWith(data["Capacity"], "IU CODE", s)
          else HasRowWith(data["Capacity"], "IUGU CODE", s))
      && "Demand" in data && HasRowWith(data["Demand"], "IUGU CODE", d)
    ensures HasCompleteData(data, s, d) ==> s != Missing && d != Missing
  {
    if "ProductionCost" in data {
      PlantRowMeaning(data["ProductionCost"], s);
    }
    if "Capacity" in data {
      PlantRowMeaning(data["Capacity"], s);
    }
    if "Demand" in data {
      var dm := data["Demand"];
      AnyMatchMeaning(dm, "IUGU CODE", d);
      if HasRowWith(dm, "IUGU CODE", d) {
        var j :| 0 <= j < |dm.rows| && CellAt(dm, j, "IUGU CODE") == d;
        ColumnIndexMeaning(dm.columns, "IUGU CODE");
      }
    }
    if "Logistics" in data {
      var l := data["Logistics"];
      var m := FirstMatch(l, RouteConds(s, d));
      if m.Some? {
        RouteRowHasCodes(l, m.value, s, d);
        assert IsFirstMatch(l, RouteConds(s, d), m.value);
      }
      if exists i: nat :: IsFirstMatch(l, RouteConds(s, d), i) && CellAt(l, i, FreightCol) != Missing {
        var i: nat :| IsFirstMatch(l, RouteConds(s, d), i) && CellAt(l, i, FreightCol) != Missing;
        assert m == Some(i);
      }
    }
  }

  /**
   * Only the first logistics row of a pair is looked at: a pair whose first
   * row lacks a freight cost is incomplete even when a later row has one.
   */
  lemma FirstRowFreightOnly()
    ensures var l := Table([FromCol, ToCol, FreightCol],
                           [[Str("IU1"), Str("GU1"), Missing], [Str("IU1"), Str("GU1"), Num(5.0)]]);
            && CellAt(l, 1, FreightCol) == Num(5.0) && RowMatches(l, 1, RouteConds(Str("IU1"), Str("GU1")))
            && forall data: Dataset :: "Logistics" in data && data["Logistics"] == l ==>
                 !HasCompleteData(data, Str("IU1"), Str("GU1"))
  {
    var l := Table([FromCol, ToCol, FreightCol],
                   [[Str("IU1"), Str("GU1"), Missing], [Str("IU1"), Str("GU1"), Num(5.0)]]);
    var conds := RouteConds(Str("IU1"), Str("GU1"));
    ColumnIndexMeaning(l.columns, FromCol);
    ColumnIndexMeaning(l.columns, ToCol);
    ColumnIndexMeaning(l.columns, FreightCol);
    RowMatches2(l, 0, conds[0], conds[1]);
    RowMatches2(l, 1, conds[0], conds[1]);
    assert FirstMatch(l, conds) == Some(0);
  }

  // ---------------------------------------------------------------------------
  // Destinations and modes
  // ---------------------------------------------------------------------------

  /** The distinct destinations the logistics sheet lists for a source, in order of appearance. */
  function RawDestinations(data: Dataset, s: Cell): seq<Cell> {
    if "Logistics" in data then Unique(Select(data["Logistics"], ToCol, [Eq(FromCol, s)])) else []
  }

  /** `get_destinations_for_source` on a loaded dataset. */
  function DestinationsFor(data: Dataset, s: Cell): seq<Cell> {
    Filter(RawDestinations(data, s), d => HasCompleteData(data, s, d))
  }

  /** A complete pair is one of the source's raw destinations. */
  lemma CompleteIsRawDestination(data: Dataset, s: Cell, d: Cell)
    requires HasCompleteData(data, s, d)
    ensures d in RawDestinations(data, s)
  {
    var l := data["Logistics"];
    var i := FirstMatch(l, RouteConds(s, d)).value;
    RouteRowHasCodes(l, i, s, d);
    SelectUpToMeaning(l, ToCol, [Eq(FromCol, s)], |l.rows|);
    assert d in SelectUpTo(l, ToCol, [Eq(FromCol, s)], |l.rows|);
  }

  /**
   * The valid destinations of a source are exactly the destinations that
   * form a complete pair with it, each listed once, in the order in which
   * the logistics sheet first names them for that source.
   */
  lemma DestinationsForMeaning(data: Dataset, s: Cell)
    ensures forall d :: d in DestinationsFor(data, s) <==> HasCompleteData(data, s, d)
    ensures NoDuplicates(DestinationsFor(data, s))
    ensures "Logistics" in data ==>
      InFirstAppearanceOrder(DestinationsFor(data, s), Select(data["Logistics"], ToCol, [Eq(FromCol, s)]))
    ensures "Logistics" !in data ==> DestinationsFor(data, s) == []
  {
    forall d | HasCompleteData(data, s, d) ensures d in RawDestinations(data, s) {
      CompleteIsRawDestination(data, s, d);
    }
    if "Logistics" in data {
      var sel := Select(data["Logistics"], ToCol, [Eq(FromCol, s)]);
      UniqueInFirstAppearanceOrder(sel);
      FilterKeepsOrder(Unique(sel), sel, d => HasCompleteData(data, s, d));
    }
  }

  /** `get_modes_for_route` on a loaded dataset: no completeness filtering. */
  function ModesFor(data: Dataset, s: Cell, d: Cell): (r: seq<Cell>)
    ensures NoDuplicates(r)
    ensures "Logistics" in data ==> forall m :: m in r <==>
      exists i :: 0 <= i < |data["Logistics"].rows| && RowMatches(data["Logistics"], i, RouteConds(s, d))
        && CellAt(data["Logistics"], i, ModeCol) == m
    ensures "Logistics" !in data ==> r == []
  {
    if "Logistics" in data then
      SelectUpToMeaning(data["Logistics"], ModeCol, RouteConds(s, d), |data["Logistics"].rows|);
      Unique(Select(data["Logistics"], ModeCol, RouteConds(s, d)))
    else []
  }

  /** The distinct destinations the logistics sheet lists for `s`, in sheet order. */
  function SourceDestinations(l: Table, s: Cell): seq<Cell> {
    Unique(Select(l, ToCol, [Eq(FromCol, s)]))
  }

  function RoutesBySourceOf(l: Table): map<Cell, seq<Cell>> {
    map s | s in Column(l, FromCol) :: SourceDestinations(l, s)
  }

  /** Walking the distinct sources one by one builds the whole route map. */
  lemma RoutesLoopBuildsMap(l: Table)
    ensures var sources := Unique(Column(l, FromCol));
      MapUpTo(sources, s => SourceDestinations(l, s), |sources|) == RoutesBySourceOf(l)
  {
    var sources := Unique(Column(l, FromCol));
    MapUpToMeaning(sources, s => SourceDestinations(l, s), |sources|);
    assert sources[..|sources|] == sources;
  }

  /** The route list of every indexed source is its raw destination list, a superset of its valid ones. */
  lemma RoutesBySourceListsRawDestinations(data: Dataset, s: Cell)
    requires "Logistics" in data && s in RoutesBySourceOf(data["Logistics"])
    ensures RoutesBySourceOf(data["Logistics"])[s] == RawDestinations(data, s)
    ensures forall d :: d in DestinationsFor(data, s) ==> d in RoutesBySourceOf(data["Logistics"])[s]
  {
  }

  /** The pair under which `modes_by_route` files a row (the source writes it as the string "src_dst"). */
  type RouteKey = (Cell, Cell)

  /** Add `mode` to the list of `key`, opening the list when the key is new. */
  function AddMode(index: map<RouteKey, seq<Cell>>, key: RouteKey, mode: Cell): map<RouteKey, seq<Cell>> {
    if key !in index then index[key := [mode]]
    else if mode in index[key] then index
    else index[key := index[key] + [mode]]
  }

  /**
   * `modes_by_route` over the first `n` logistics rows.  The source walks the
   * distinct (from, to, mode) triples; a repeated triple changes nothing
   * here, so walking every row gives the same index.
   */
  function ModesIndexUpTo(l: Table, n: nat): map<RouteKey, seq<Cell>>
    requires n <= |l.rows|
  {
    if n == 0 then map[]
    else
      AddMode(ModesIndexUpTo(l, n - 1), (CellAt(l, n - 1, FromCol), CellAt(l, n - 1, ToCol)), CellAt(l, n - 1, ModeCol))
  }

  /** Opening an empty list for a new key and then appending an absent mode is `AddMode`. */
  lemma OpenThenAppend(index: map<RouteKey, seq<Cell>>, key: RouteKey, mode: Cell)
    ensures var started := if key !in index then index[key := []] else index;
      (if mode !in started[key] then started[key := started[key] + [mode]] else started) == AddMode(index, key, mode)
  {
    if key !in index {
      assert [] + [mode] == [mode];
    }
  }

  function ModesIndex(l: Table): map<RouteKey, seq<Cell>> {
    ModesIndexUpTo(l, |l.rows|)
  }

  /** The source's own key for a pair of string codes: the codes joined by an underscore. */
  function StringKey(s: string, d: string): string {
    s + "_" + d
  }

  /**
   * Two different pairs can share one string key, so the source's index may
   * merge their mode lists; the pair-keyed index here keeps them apart.
   */
  lemma StringKeysCollide()
    ensures StringKey("A_B", "C") == StringKey("A", "B_C")
    ensures (Str("A_B"), Str("C")) != (Str("A"), Str("B_C"))
  {
    assert StringKey("A_B", "C") == "A_B_C" == StringKey("A", "B_C");
  }

  /** Every mode list of the index is duplicate-free. */
  lemma {:induction false} ModesIndexListsDistinct(l: Table, n: nat)
    requires n <= |l.rows|
    ensures forall k :: k in ModesIndexUpTo(l, n) ==> NoDuplicates(ModesIndexUpTo(l, n)[k])
  {
    if n > 0 {
      ModesIndexListsDistinct(l, n - 1);
    }
  }

  lemma UniqueSnoc<T(!new)>(s: seq<T>, x: T)
    ensures Unique(s + [x]) == if x in Unique(s) then Unique(s) else Unique(s) + [x]
  {
    assert (s + [x])[..|s + [x]| - 1] == s;
  }

  /** What one row does to the list of a key: it extends the row's own key and no other. */
  lemma AddModeAt(index: map<RouteKey, seq<Cell>>, key: RouteKey, mode: Cell, k: RouteKey)
    ensures k in AddMode(index, key, mode) <==> k in index || k == key
    ensures k != key && k in index ==> AddMode(index, key, mode)[k] == index[k]
    ensures k == key ==> (AddMode(index, key, mode)[k] ==
      if k !in index then [mode] else if mode in index[k] then index[k] else index[k] + [mode])
  {
  }

  /** The selection over `n` rows of a pair of non-empty codes, one row at a time. */
  lemma SelectStep(l: Table, n: nat, s: Cell, d: Cell)
    requires 0 < n <= |l.rows| && s != Missing && d != Missing
    ensures SelectUpTo(l, ModeCol, RouteConds(s, d), n) ==
      if (CellAt(l, n - 1, FromCol), CellAt(l, n - 1, ToCol)) == (s, d)
      then SelectUpTo(l, ModeCol, RouteConds(s, d), n - 1) + [CellAt(l, n - 1, ModeCol)]
      else SelectUpTo(l, ModeCol, RouteConds(s, d), n - 1)
  {
    RowMatches2(l, n - 1, Eq(FromCol, s), Eq(ToCol, d));
  }

  /**
   * For a pair of non-empty codes, the index files exactly the pair's rows:
   * the pair is a key when some row has it, and its list is the pair's
   * distinct modes in order of first appearance.
   */
  lemma {:induction false} ModesIndexAgreesUpTo(l: Table, n: nat, s: Cell, d: Cell)
    requires n <= |l.rows| && s != Missing && d != Missing
    ensures (s, d) in ModesIndexUpTo(l, n) <==> SelectUpTo(l, ModeCol, RouteConds(s, d), n) != []
    ensures (s, d) in ModesIndexUpTo(l, n) ==>
      ModesIndexUpTo(l, n)[(s, d)] == Unique(SelectUpTo(l, ModeCol, RouteConds(s, d), n))
  {
    if n > 0 {
      ModesIndexAgreesUpTo(l, n - 1, s, d);
      var key := (CellAt(l, n - 1, FromCol), CellAt(l, n - 1, ToCol));
      SelectStep(l, n, s, d);
      AgreesStep(ModesIndexUpTo(l, n - 1), key, CellAt(l, n - 1, ModeCol), (s, d),
                 SelectUpTo(l, ModeCol, RouteConds(s, d), n - 1), SelectUpTo(l, ModeCol, RouteConds(s, d), n));
    }
  }

  /** One row keeps the index in agreement with the selection of a pair's modes. */
  lemma AgreesStep(index: map<RouteKey, seq<Cell>>, key: RouteKey, mode: Cell, pair: RouteKey,
                   prev: seq<Cell>, selected: seq<Cell>)
    requires (pair in index <==> prev != []) && (pair in index ==> index[pair] == Unique(prev))
    requires selected == if key == pair then prev + [mode] else prev
    ensures pair in AddMode(index, key, mode) <==> selected != []
    ensures pair in AddMode(index, key, mode) ==> AddMode(index, key, mode)[pair] == Unique(selected)
  {
    AddModeAt(index, key, mode, pair);
    if key == pair {
      UniqueSnoc(prev, mode);
      if prev == [] {
        assert Unique(prev) == [];
      }
    }
  }

  /** The index and `get_modes_for_route` agree on every pair of non-empty codes. */
  lemma ModesIndexAgrees(data: Dataset, s: Cell, d: Cell)
    requires "Logistics" in data && s != Missing && d != Missing
    ensures (s, d) in ModesIndex(data["Logistics"]) <==> ModesFor(data, s, d) != []
    ensures (s, d) in ModesIndex(data["Logistics"]) ==> ModesIndex(data["Logistics"])[(s, d)] == ModesFor(data, s, d)
  {
    var l := data["Logistics"];
    ModesIndexAgreesUpTo(l, |l.rows|, s, d);
    var sel := Select(l, ModeCol, RouteConds(s, d));
    assert sel != [] ==> sel[0] in Unique(sel);
  }

  // ---------------------------------------------------------------------------
  // Periods, sources and the metadata record
  // ---------------------------------------------------------------------------

  /** `sorted(unique(TIME PERIOD))` from the logistics sheet, else from the demand sheet. */
  function PeriodsOf(data: Dataset): Option<seq<real>> {
    if "Logistics" in data then Some(SortedDistinct(Numbers(Column(data["Logistics"], PeriodCol))))
    else if "Demand" in data then Some(SortedDistinct(Numbers(Column(data["Demand"], PeriodCol))))
    else None
  }

  /** The periods are ascending and are exactly the numeric periods of the sheet they come from. */
  lemma PeriodsMeaning(data: Dataset)
    ensures PeriodsOf(data).Some? <==> "Logistics" in data || "Demand" in data
    ensures PeriodsOf(data).Some? ==> StrictlyIncreasing(PeriodsOf(data).value)
    ensures "Logistics" in data ==> forall p :: p in PeriodsOf(data).value <==> Num(p) in Column(data["Logistics"], PeriodCol)
    ensures "Logistics" !in data && "Demand" in data ==>
      forall p :: p in PeriodsOf(data).value <==> Num(p) in Column(data["Demand"], PeriodCol)
  {
  }

  /** `_filter_sources_with_complete_data`: the sources with at least one valid destination. */
  function ValidSources(data: Dataset, all: seq<Cell>): seq<Cell> {
    Filter(all, s => DestinationsFor(data, s) != [])
  }

  /** The parser's metadata dictionary; a key the parser never set is `None`. */
  datatype Metadata = Metadata(
    plants: Option<seq<Cell>>,
    iuPlants: Option<seq<Cell>>,
    guPlants: Option<seq<Cell>>,
    allDestinations: Option<seq<Cell>>,
    transportModes: Option<seq<Cell>>,
    sourceIus: Option<seq<Cell>>,
    periods: Option<seq<real>>,
    recordCounts: Option<map<string, nat>>,
    routesBySource: Option<map<Cell, seq<Cell>>>,
    modesByRoute: Option<map<RouteKey, seq<Cell>>>,
    allSourcesCount: Option<nat>,
    validSourcesCount: Option<nat>)

  const EmptyMetadata := Metadata(None, None, None, None, None, None, None, None, None, None, None, None)

  function PlantsOfType(t: Table, kind: string): seq<Cell> {
    Unique(Select(t, "IUGU CODE", [Eq("PLANT TYPE", Str(kind))]))
  }

  /**
   * The metadata `_extract_metadata` builds before it filters the sources:
   * the source list is still every logistics source.
   */
  function RawMetadataOf(data: Dataset): Metadata {
    var hasTypes := "IUGUType" in data;
    var hasLogistics := "Logistics" in data;
    Metadata(
      plants := if hasTypes then Some(Unique(Column(data["IUGUType"], "IUGU CODE"))) else None,
      iuPlants := if hasTypes then Some(PlantsOfType(data["IUGUType"], "IU")) else None,
      guPlants := if hasTypes then Some(PlantsOfType(data["IUGUType"], "GU")) else None,
      allDestinations := if hasLogistics then Some(Unique(Column(data["Logistics"], ToCol))) else None,
      transportModes := if hasLogistics then Some(Unique(Column(data["Logistics"], ModeCol))) else None,
      sourceIus := if hasLogistics then Some(Unique(Column(data["Logistics"], FromCol))) else None,
      periods := PeriodsOf(data),
      recordCounts := Some(map name | name in data :: |data[name].rows|),
      routesBySource := if hasLogistics then Some(RoutesBySourceOf(data["Logistics"])) else None,
      modesByRoute := if hasLogistics then Some(ModesIndex(data["Logistics"])) else None,
      allSourcesCount := None,
      validSourcesCount := None)
  }

  /** `_filter_sources_with_complete_data` on metadata `m` of a loaded dataset. */
  function FilterSources(data: Dataset, m: Metadata): Metadata {
    if m.sourceIus.None? then m
    else
      var all := m.sourceIus.value;
      var valid := ValidSources(data, all);
      m.(sourceIus := Some(valid), allSourcesCount := Some(|all|), validSourcesCount := Some(|valid|))
  }

  /** `_extract_metadata` on a loaded dataset, starting from an empty dictionary. */
  function MetadataOf(data: Dataset): Metadata {
    FilterSources(data, RawMetadataOf(data))
  }

  /**
   * The source list the metadata offers: each entry is a logistics source
   * with at least one valid destination, every such source is listed, the
   * order is the sheet's, and the valid count never exceeds the raw count.
   */
  lemma ListedSourcesHaveDestinations(data: Dataset)
    requires "Logistics" in data
    ensures var m := MetadataOf(data);
      && m.sourceIus.Some? && m.allSourcesCount.Some? && m.validSourcesCount.Some?
      && m.validSourcesCount.value == |m.sourceIus.value| <= m.allSourcesCount.value
      && NoDuplicates(m.sourceIus.value)
      && InFirstAppearanceOrder(m.sourceIus.value, Column(data["Logistics"], FromCol))
      && forall s :: s in m.sourceIus.value <==> s in Column(data["Logistics"], FromCol) && DestinationsFor(data, s) != []
  {
    var col := Column(data["Logistics"], FromCol);
    UniqueInFirstAppearanceOrder(col);
    FilterKeepsOrder(Unique(col), col, s => DestinationsFor(data, s) != []);
  }

  /** The IU (or GU) plant list holds each plant of that type once, and nothing else. */
  lemma PlantsOfTypeMeaning(t: Table, kind: string)
    ensures NoDuplicates(PlantsOfType(t, kind))
    ensures forall c :: c in PlantsOfType(t, kind) <==>
      exists i :: 0 <= i < |t.rows| && CellAt(t, i, "PLANT TYPE") == Str(kind) && CellAt(t, i, "IUGU CODE") == c
  {
    SelectUpToMeaning(t, "IUGU CODE", [Eq("PLANT TYPE", Str(kind))], |t.rows|);
    forall i | 0 <= i < |t.rows|
      ensures RowMatches(t, i, [Eq("PLANT TYPE", Str(kind))]) <==> CellAt(t, i, "PLANT TYPE") == Str(kind)
    {
      RowMatches1(t, i, Eq("PLANT TYPE", Str(kind)));
    }
  }
}
