/**
 * Tabular data as the loaders hand it over: every sheet of the workbook is a
 * table with a header of column names and rows of cells.  The lookup
 * primitives here are the ones the parser and the optimizer share: exact-match
 * row filters with pandas' comparison semantics, first-match search, column
 * selection, first-appearance de-duplication and ordered filtering.
 */
module Tables {

  datatype Option<+T> = None | Some(value: T) {
    function GetOr(default: T): T {
      match this
      case Some(v) => v
      case None => default
    }
  }

  /** One spreadsheet cell: empty (NaN), a number, or text. */
  datatype Cell = Missing | Num(r: real) | Str(s: string)

  /** A sheet: column names and rows whose cells line up with the columns. */
  datatype Table = Table(columns: seq<string>, rows: seq<seq<Cell>>)

  /** The loaded sheets, keyed by their logical sheet name. */
  type Dataset = map<string, Table>

  function SheetOf(data: Dataset, name: string): Option<Table> {
    if name in data then Some(data[name]) else None
  }

  // ---------------------------------------------------------------------------
  // Column access
  // ---------------------------------------------------------------------------

  /** Position of the first column called `name`. */
  function ColumnIndex(columns: seq<string>, name: string): (r: Option<nat>)
    ensures r.Some? ==> r.value < |columns|
  {
    if |columns| == 0 then None
    else if columns[0] == name then Some(0)
    else
      match ColumnIndex(columns[1..], name)
      case None => None
      case Some(j) => Some(j + 1)
  }

  /** The position is that of the first column called `name`, and there is none exactly when no column is. */
  lemma {:induction false} ColumnIndexMeaning(columns: seq<string>, name: string)
    ensures var r := ColumnIndex(columns, name);
      && (r.Some? ==> columns[r.value] == name && forall j :: 0 <= j < r.value ==> columns[j] != name)
      && (r.None? <==> name !in columns)
  {
    if |columns| > 0 && columns[0] != name {
      ColumnIndexMeaning(columns[1..], name);
      assert columns == [columns[0]] + columns[1..];
    }
  }

  /** The cell of row `i` under column `col`; an absent column reads as Missing. */
  function CellAt(t: Table, i: nat, col: string): Cell
    requires i < |t.rows|
  {
    match ColumnIndex(t.columns, col)
    case None => Missing
    case Some(j) => if j < |t.rows[i]| then t.rows[i][j] else Missing
  }

  /** `row.get(col, default)`: the default only when the column does not exist. */
  function CellOr(t: Table, i: nat, col: string, default: Cell): Cell
    requires i < |t.rows|
  {
    if col in t.columns then CellAt(t, i, col) else default
  }

  // ---------------------------------------------------------------------------
  // Row filters
  // ---------------------------------------------------------------------------

  /** pandas' element-wise `==` against a scalar: NaN never compares equal. */
  predicate Matches(c: Cell, key: Cell) {
    c != Missing && c == key
  }

  /** One conjunct of a boolean mask: `df[col] == key`. */
  datatype Cond = Eq(col: string, key: Cell)

  predicate RowMatches(t: Table, i: nat, conds: seq<Cond>)
    requires i < |t.rows|
  {
    forall k :: 0 <= k < |conds| ==> Matches(CellAt(t, i, conds[k].col), conds[k].key)
  }

  lemma RowMatches1(t: Table, i: nat, a: Cond)
    requires i < |t.rows|
    ensures RowMatches(t, i, [a]) <==> Matches(CellAt(t, i, a.col), a.key)
  {
    var conds := [a];
    assert conds[0] == a;
  }

  lemma RowMatches2(t: Table, i: nat, a: Cond, b: Cond)
    requires i < |t.rows|
    ensures RowMatches(t, i, [a, b]) <==>
      Matches(CellAt(t, i, a.col), a.key) && Matches(CellAt(t, i, b.col), b.key)
  {
    var conds := [a, b];
    assert conds[0] == a && conds[1] == b;
  }

  /** Row `i` is the first row the mask selects. */
  predicate IsFirstMatch(t: Table, conds: seq<Cond>, i: nat) {
    && i < |t.rows|
    && RowMatches(t, i, conds)
    && forall j :: 0 <= j < i ==> !RowMatches(t, j, conds)
  }

  function FirstMatchFrom(t: Table, conds: seq<Cond>, from: nat): (r: Option<nat>)
    requires from <= |t.rows|
    decreases |t.rows| - from
    ensures r.Some? ==> from <= r.value < |t.rows| && RowMatches(t, r.value, conds)
    ensures r.Some? ==> forall j :: from <= j < r.value ==> !RowMatches(t, j, conds)
    ensures r.None? ==> forall j :: from <= j < |t.rows| ==> !RowMatches(t, j, conds)
  {
    if from == |t.rows| then None
    else if RowMatches(t, from, conds) then Some(from)
    else FirstMatchFrom(t, conds, from + 1)
  }

  /** `df[mask].iloc[0]`'s position, if the mask selects any row. */
  function FirstMatch(t: Table, conds: seq<Cond>): (r: Option<nat>)
    ensures r.Some? ==> IsFirstMatch(t, conds, r.value)
    ensures r.None? <==> forall j :: 0 <= j < |t.rows| ==> !RowMatches(t, j, conds)
  {
    FirstMatchFrom(t, conds, 0)
  }

  /** `not df[mask].empty` */
  predicate AnyMatch(t: Table, conds: seq<Cond>) {
    FirstMatch(t, conds).Some?
  }

  /** `df[mask][col]` as a list, in row order (first `n` rows). */
  function SelectUpTo(t: Table, col: string, conds: seq<Cond>, n: nat): seq<Cell>
    requires n <= |t.rows|
  {
    if n == 0 then []
    else
      var prev := SelectUpTo(t, col, conds, n - 1);
      if RowMatches(t, n - 1, conds) then prev + [CellAt(t, n - 1, col)] else prev
  }

  /** The selection holds the column's cell of exactly the matching rows, at most one per row. */
  lemma {:induction false} SelectUpToMeaning(t: Table, col: string, conds: seq<Cond>, n: nat)
    requires n <= |t.rows|
    ensures |SelectUpTo(t, col, conds, n)| <= n
    ensures forall c :: c in SelectUpTo(t, col, conds, n) <==>
      exists i :: 0 <= i < n && RowMatches(t, i, conds) && CellAt(t, i, col) == c
  {
    if n > 0 {
      SelectUpToMeaning(t, col, conds, n - 1);
      var prev := SelectUpTo(t, col, conds, n - 1);
      forall c | c in SelectUpTo(t, col, conds, n) && c !in prev
        ensures RowMatches(t, n - 1, conds) && CellAt(t, n - 1, col) == c
      {
      }
    }
  }

  /** The members of a list that is extended by `x` or not at all. */
  lemma SnocMembers<T>(prev: seq<T>, r: seq<T>, keep: bool, x: T)
    requires r == if keep then prev + [x] else prev
    ensures |r| <= |prev| + 1 && forall c :: c in r <==> c in prev || (keep && c == x)
  {
  }

  function Select(t: Table, col: string, conds: seq<Cond>): seq<Cell> {
    SelectUpTo(t, col, conds, |t.rows|)
  }

  /** Every cell of one column, in row order. */
  function Column(t: Table, col: string): seq<Cell> {
    Select(t, col, [])
  }

  // ---------------------------------------------------------------------------
  // Sequences: first-appearance de-duplication and ordered filtering
  // ---------------------------------------------------------------------------

  predicate NoDuplicates<T(==)>(s: seq<T>) {
    forall i, j :: 0 <= i < j < |s| ==> s[i] != s[j]
  }

  /** Position of the first occurrence of `x`. */
  function IndexOf<T(==)>(s: seq<T>, x: T): (i: nat)
    requires x in s
    ensures i < |s| && s[i] == x
    ensures forall j :: 0 <= j < i ==> s[j] != x
  {
    if s[0] == x then 0 else 1 + IndexOf(s[1..], x)
  }

  /** The elements of `r` are elements of `s`, listed in the order of their first occurrence in `s`. */
  predicate InFirstAppearanceOrder<T(==)>(r: seq<T>, s: seq<T>) {
    && (forall x :: x in r ==> x in s)
    && forall i, j :: 0 <= i < j < |r| ==> r[i] in s && r[j] in s && IndexOf(s, r[i]) < IndexOf(s, r[j])
  }

  /** pandas' `unique()`: the distinct values, in order of first appearance. */
  function Unique<T(==,!new)>(s: seq<T>): (r: seq<T>)
    ensures forall x :: x in r <==> x in s
    ensures NoDuplicates(r)
    ensures |r| <= |s|
  {
    if |s| == 0 then []
    else
      var u := Unique(s[..|s| - 1]);
      var x := s[|s| - 1];
      assert forall y :: y in s <==> y in s[..|s| - 1] || y == x;
      if x in u then u else u + [x]
  }

  lemma IndexOfInPrefix<T>(s: seq<T>, n: nat, x: T)
    requires n <= |s| && x in s[..n]
    ensures IndexOf(s, x) == IndexOf(s[..n], x)
  {
    var k := IndexOf(s[..n], x);
    assert s[k] == x;
    var m := IndexOf(s, x);
    assert m <= k;
    assert s[..n][m] == x;
  }

  lemma {:induction false} UniqueInFirstAppearanceOrder<T(!new)>(s: seq<T>)
    ensures InFirstAppearanceOrder(Unique(s), s)
  {
    if |s| > 0 {
      var p := s[..|s| - 1];
      var x := s[|s| - 1];
      var u := Unique(p);
      UniqueInFirstAppearanceOrder(p);
      forall y | y in p
        ensures y in s && IndexOf(s, y) == IndexOf(p, y)
      {
        IndexOfInPrefix(s, |s| - 1, y);
      }
      if x !in u {
        assert x !in p;
        assert IndexOf(s, x) == |s| - 1;
        var r := u + [x];
        forall i, j | 0 <= i < j < |r|
          ensures r[i] in s && r[j] in s && IndexOf(s, r[i]) < IndexOf(s, r[j])
        {
          if j < |u| {
            assert r[i] == u[i] && r[j] == u[j];
          } else {
            assert r[i] == u[i] && u[i] in p;
            assert IndexOf(p, u[i]) < |p|;
          }
        }
      }
    }
  }

  /** The elements of `s` satisfying `p`, in their order in `s`. */
  function Filter<T(!new)>(s: seq<T>, p: T -> bool): (r: seq<T>)
    ensures forall x :: x in r <==> x in s && p(x)
    ensures |r| <= |s|
    ensures NoDuplicates(s) ==> NoDuplicates(r)
    ensures forall i :: 0 <= i < |r| ==> p(r[i])
  {
    if |s| == 0 then []
    else
      var prev := Filter(s[..|s| - 1], p);
      var x := s[|s| - 1];
      assert forall y :: y in s <==> y in s[..|s| - 1] || y == x;
      if p(x) then prev + [x] else prev
  }

  lemma {:induction false} FilterKeepsOrder<T(!new)>(u: seq<T>, s: seq<T>, p: T -> bool)
    requires InFirstAppearanceOrder(u, s)
    ensures InFirstAppearanceOrder(Filter(u, p), s)
  {
    if |u| > 0 {
      var q := u[..|u| - 1];
      var x := u[|u| - 1];
      assert InFirstAppearanceOrder(q, s) by {
        forall i, j | 0 <= i < j < |q| ensures q[i] in s && q[j] in s && IndexOf(s, q[i]) < IndexOf(s, q[j]) {
          assert q[i] == u[i] && q[j] == u[j];
        }
      }
      FilterKeepsOrder(q, s, p);
      var f := Filter(q, p);
      if p(x) {
        var r := f + [x];
        forall i, j | 0 <= i < j < |r|
          ensures r[i] in s && r[j] in s && IndexOf(s, r[i]) < IndexOf(s, r[j])
        {
          if j < |f| {
            assert r[i] == f[i] && r[j] == f[j];
          } else {
            assert r[i] == f[i] && f[i] in q;
            var k :| 0 <= k < |q| && q[k] == f[i];
            assert u[k] == r[i] && u[|u| - 1] == r[j];
          }
        }
      }
    }
  }

  /** Object-dtype `unique()` restricted to the numeric values of a column. */
  function Numbers(cells: seq<Cell>): (r: seq<real>)
    ensures forall x :: x in r <==> Num(x) in cells
  {
    if |cells| == 0 then []
    else
      var prev := Numbers(cells[..|cells| - 1]);
      var c := cells[|cells| - 1];
      assert forall d :: d in cells <==> d in cells[..|cells| - 1] || d == c;
      if c.Num? then prev + [c.r] else prev
  }

  // ---------------------------------------------------------------------------
  // Sorted, duplicate-free sequences of numbers
  // ---------------------------------------------------------------------------

  predicate StrictlyIncreasing(s: seq<real>) {
    forall i, j :: 0 <= i < j < |s| ==> s[i] < s[j]
  }

  /** Insert `x` into a strictly increasing sequence, keeping it strictly increasing. */
  function Insert(s: seq<real>, x: real): (r: seq<real>)
    requires StrictlyIncreasing(s)
    ensures StrictlyIncreasing(r)
    ensures forall y :: y in r <==> y in s || y == x
  {
    if |s| == 0 then [x]
    else if x < s[0] then [x] + s
    else if x == s[0] then s
    else
      var tail := Insert(s[1..], x);
      assert forall y :: y in s <==> y == s[0] || y in s[1..];
      assert forall y :: y in tail ==> s[0] < y;
      var r := [s[0]] + tail;
      assert forall i, j :: 0 <= i < j < |r| ==> r[i] < r[j] by {
        forall i, j | 0 <= i < j < |r| ensures r[i] < r[j] {
          if i == 0 { assert r[j] == tail[j - 1] && r[j] in tail; } else { assert r[i] == tail[i - 1] && r[j] == tail[j - 1]; }
        }
      }
      r
  }

  /** `sorted(set(xs))` */
  function SortedDistinct(xs: seq<real>): (r: seq<real>)
    ensures StrictlyIncreasing(r)
    ensures forall y :: y in r <==> y in xs
  {
    if |xs| == 0 then []
    else
      assert forall y :: y in xs <==> y in xs[..|xs| - 1] || y == xs[|xs| - 1];
      Insert(SortedDistinct(xs[..|xs| - 1]), xs[|xs| - 1])
  }

  // ---------------------------------------------------------------------------
  // Strings (case mapping of ASCII letters only; `str.strip` removes the
  // characters `str.isspace` accepts)
  // ---------------------------------------------------------------------------

  function UpperChar(c: char): char {
    if 'a' <= c <= 'z' then (c as int - 32) as char else c
  }

  function LowerChar(c: char): char {
    if 'A' <= c <= 'Z' then (c as int + 32) as char else c
  }

  /** `str.upper()` */
  function Upper(s: string): (r: string)
    ensures |r| == |s|
  {
    seq(|s|, i requires 0 <= i < |s| => UpperChar(s[i]))
  }

  /** `str.lower()` */
  function Lower(s: string): (r: string)
    ensures |r| == |s|
  {
    seq(|s|, i requires 0 <= i < |s| => LowerChar(s[i]))
  }

  /** `str.isspace()` on one character: ASCII and Unicode whitespace, separators included. */
  predicate IsSpace(c: char) {
    || '\U{09}' <= c <= '\U{0D}'
    || '\U{1C}' <= c <= '\U{20}'
    || c == '\U{85}' || c == '\U{A0}' || c == '\U{1680}'
    || '\U{2000}' <= c <= '\U{200A}'
    || c == '\U{2028}' || c == '\U{2029}' || c == '\U{202F}' || c == '\U{205F}' || c == '\U{3000}'
  }

  function TrimStart(s: string): (r: string)
    ensures |r| <= |s| && r == s[|s| - |r|..]
    ensures |r| > 0 ==> !IsSpace(r[0])
  {
    if |s| > 0 && IsSpace(s[0]) then TrimStart(s[1..]) else s
  }

  function TrimEnd(s: string): (r: string)
    ensures |r| <= |s| && r == s[..|r|]
    ensures |r| > 0 ==> !IsSpace(r[|r| - 1])
  {
    if |s| > 0 && IsSpace(s[|s| - 1]) then TrimEnd(s[..|s| - 1]) else s
  }

  /** `str.strip()` */
  function Strip(s: string): string {
    TrimEnd(TrimStart(s))
  }

  predicate StartsWith(s: string, prefix: string) {
    |prefix| <= |s| && s[..|prefix|] == prefix
  }

  /** `sep.join(parts)` */
  function Join(parts: seq<string>, sep: string): string {
    if |parts| == 0 then ""
    else if |parts| == 1 then parts[0]
    else parts[0] + sep + Join(parts[1..], sep)
  }

  /** `df.columns = df.columns.str.strip()` */
  function StripColumns(t: Table): (r: Table)
    ensures |r.columns| == |t.columns| && r.rows == t.rows
  {
    Table(seq(|t.columns|, i requires 0 <= i < |t.columns| => Strip(t.columns[i])), t.rows)
  }

  /** The map a loop builds by storing `f(keys[j])` under each of the first `i` keys. */
  function MapUpTo<K, V>(keys: seq<K>, f: K -> V, i: nat): map<K, V>
    requires i <= |keys|
  {
    if i == 0 then map[] else MapUpTo(keys, f, i - 1)[keys[i - 1] := f(keys[i - 1])]
  }

  lemma {:induction false} MapUpToMeaning<K, V>(keys: seq<K>, f: K -> V, i: nat)
    requires i <= |keys|
    ensures forall k :: k in MapUpTo(keys, f, i) <==> k in keys[..i]
    ensures forall k :: k in MapUpTo(keys, f, i) ==> MapUpTo(keys, f, i)[k] == f(k)
  {
    if i > 0 {
      MapUpToMeaning(keys, f, i - 1);
      assert keys[..i] == keys[..i - 1] + [keys[i - 1]];
    }
  }
}
