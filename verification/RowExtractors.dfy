/**
The two recipe-driven row extractors, written separately in the source: the command-line one, which can also
read a table without headers by cell index, and the one behind the web interface.
*/
module RowExtractors {
  import opened Wrappers
  import Text
  import Aria

  datatype Column = Column(field: string, title: string)

  /** The columns in the order the source enumerates them; `indexes` is the optional field-to-cell map. */
  datatype Recipe = Recipe(
    name: string,
    role: string,
    row: string,
    columns: seq<Column>,
    key: string,
    strip: map<string, string>,
    indexes: Option<map<string, int>>)

  datatype Fault =
    | NoName | NoColumns | BadKey | NotFound | Ambiguous | NoHeader
    | MissingColumn(field: string) | AmbiguousColumn(field: string) | BadIndexes
    | CellCount | DuplicateKey

  /** One extracted record: `data[c]` is the value of the recipe's column `c`. */
  datatype Item = Item(key: string, data: seq<Option<string>>)

  type Row = seq<Aria.Line>
  type Strip = (Option<string>, Option<string>) -> Option<string>

  // ----- removing a suffix -----

  function OrNull(s: string): Option<string> { if s == "" then None else Some(s) }

  function ListStrip(v: Option<string>, suffix: Option<string>): Option<string> {
    if v.None? || suffix.None? || suffix.value == "" then v
    else
      var s := v.value;
      OrNull(if Text.EndsWith(s, suffix.value) then Text.Trim(s[..|s| - |suffix.value|]) else s)
  }

  function FlowStrip(v: Option<string>, suffix: Option<string>): Option<string> {
    var s := if v.None? then "" else v.value;
    if suffix.None? || suffix.value == "" then OrNull(Text.Trim(s))
    else OrNull(if Text.EndsWith(s, suffix.value) then Text.Trim(s[..|s| - |suffix.value|]) else Text.Trim(s))
  }

  lemma TrimChangesIff(s: string)
    ensures Text.Trim(s) == s <==> Text.Trimmed(s)
    ensures s == "" ==> Text.Trim(s) == ""
  {
    Text.TrimIsTrimmed(s);
    if Text.Trimmed(s) { Text.TrimmedIsFixed(s); }
  }

  /** The two suffix removals give the same value exactly here. */
  lemma StripsAgreeIff(v: Option<string>, suffix: Option<string>)
    ensures ListStrip(v, suffix) == FlowStrip(v, suffix)
            <==> (v.None?
                  || (suffix.Some? && suffix.value != "" && Text.EndsWith(v.value, suffix.value))
                  || (Text.Trimmed(v.value) && (v.value != "" || (suffix.Some? && suffix.value != ""))))
  {
    hide Text.Trim, Text.Trimmed;
    TrimChangesIff(if v.None? then "" else v.value);
    assert v.None? && suffix.Some? ==> !Text.EndsWith("", suffix.value) || suffix.value == "";
  }

  /** Cell names are cleaned before the suffix is removed, and there the two always agree. */
  lemma StripsAgree(name: Option<string>, suffix: Option<string>)
    ensures ListStrip(Aria.Clean(name), suffix) == FlowStrip(Aria.Clean(name), suffix)
  {
    if name.Some? { Text.TrimIsTrimmed(name.value); }
    StripsAgreeIff(Aria.Clean(name), suffix);
  }

  // ----- the recipe and the header -----

  function KeyColumn(columns: seq<Column>, key: string): (k: nat)
    ensures k <= |columns|
    ensures k < |columns| ==> columns[k].field == key
    ensures k == |columns| ==> forall c :: 0 <= c < |columns| ==> columns[c].field != key
  {
    if columns == [] || columns[0].field == key then 0 else 1 + KeyColumn(columns[1..], key)
  }

  function RecipeFault(recipe: Recipe): Option<Fault> {
    if recipe.name == "" then Some(NoName)
    else if recipe.columns == [] then Some(NoColumns)
    else if recipe.key == "" || KeyColumn(recipe.columns, recipe.key) == |recipe.columns| then Some(BadKey)
    else None
  }

  function RoleOf(recipe: Recipe): string { if recipe.role == "" then "table" else recipe.role }
  function RowRole(recipe: Recipe): string { if recipe.row == "" then "row" else recipe.row }

  function WithRole(row: Row, role: string): Row {
    if row == [] then [] else (if row[0].role == role then [row[0]] else []) + WithRole(row[1..], role)
  }

  /** The first row with a column header in it, or the number of rows. */
  function HeaderAt(rows: seq<Row>): (h: nat)
    ensures h <= |rows|
    ensures h < |rows| ==> WithRole(rows[h], "columnheader") != []
    ensures forall i :: 0 <= i < h ==> WithRole(rows[i], "columnheader") == []
  {
    if rows == [] || WithRole(rows[0], "columnheader") != [] then 0 else 1 + HeaderAt(rows[1..])
  }

  function NormNames(cells: Row): seq<string> {
    seq(|cells|, i requires 0 <= i < |cells| => Aria.NormName(cells[i].name))
  }

  function Headers(row: Row): seq<string> { NormNames(WithRole(row, "columnheader")) }

  /** The positions of a header, in order. */
  function Occurrences(headers: seq<string>, want: string): (found: seq<nat>)
    ensures forall n :: 0 <= n < |found| ==> found[n] < |headers| && headers[found[n]] == want
    ensures forall i :: 0 <= i < |headers| && headers[i] == want ==> i in found
  {
    if headers == [] then []
    else
      var last := |headers| - 1;
      Occurrences(headers[..last], want) + (if headers[last] == want then [last] else [])
  }

  function MapColumn(headers: seq<string>, column: Column): Result<nat, Fault> {
    var found := Occurrences(headers, Aria.Norm(column.title));
    if found == [] then Err(MissingColumn(column.field))
    else if |found| > 1 then Err(AmbiguousColumn(column.field))
    else Ok(found[0])
  }

  /** The header position of every column, or the first column that has none or several. */
  function MapColumns(headers: seq<string>, columns: seq<Column>): Result<seq<nat>, Fault> {
    if columns == [] then Ok([])
    else
      var last := |columns| - 1;
      match MapColumns(headers, columns[..last])
      case Err(f) => Err(f)
      case Ok(at) =>
        match MapColumn(headers, columns[last])
        case Err(f) => Err(f)
        case Ok(i) => Ok(at + [i])
  }

  lemma MapNone(headers: seq<string>, columns: seq<Column>)
    ensures MapColumns(headers, columns[..0]) == Ok([])
  {}

  lemma MapStep(headers: seq<string>, columns: seq<Column>, c: nat)
    requires c < |columns| && MapColumns(headers, columns[..c]).Ok?
    ensures var m := MapColumn(headers, columns[c]);
            MapColumns(headers, columns[..c + 1])
            == if m.Err? then Err(m.error) else Ok(MapColumns(headers, columns[..c]).value + [m.value])
  {
    assert columns[..c + 1][..c] == columns[..c];
  }

  /** Position `i` holds the only header with this normalised text. */
  predicate OnlyAt(headers: seq<string>, want: string, i: nat) {
    && i < |headers| && headers[i] == want
    && forall j :: 0 <= j < |headers| && headers[j] == want ==> j == i
  }

  lemma {:induction false} ColumnsAreUnique(headers: seq<string>, columns: seq<Column>)
    requires MapColumns(headers, columns).Ok?
    ensures var at := MapColumns(headers, columns).value;
            |at| == |columns|
            && forall c :: 0 <= c < |columns| ==> OnlyAt(headers, Aria.Norm(columns[c].title), at[c])
  {
    if columns != [] {
      var last := |columns| - 1;
      ColumnsAreUnique(headers, columns[..last]);
      var i := MapColumn(headers, columns[last]).value;
      assert OnlyAt(headers, Aria.Norm(columns[last].title), i);
      var before := MapColumns(headers, columns[..last]).value;
      assert forall c :: 0 <= c < last ==> columns[..last][c] == columns[c];
    }
  }

  /** One column: mapped to the only header that carries its label, or none carries it, or several do. */
  lemma MapColumnIff(headers: seq<string>, column: Column)
    ensures var m, want := MapColumn(headers, column), Aria.Norm(column.title);
            && (m == Err(MissingColumn(column.field)) <==> want !in headers)
            && (m.Ok? <==> exists i :: OnlyAt(headers, want, i))
            && (m.Ok? ==> OnlyAt(headers, want, m.value))
            && (m.Err? ==> m.error in {MissingColumn(column.field), AmbiguousColumn(column.field)})
  {
    var want := Aria.Norm(column.title);
    var found := Occurrences(headers, want);
    hide Aria.Norm, Occurrences;
    OccurrencesGrow(headers, want);
    if |found| == 1 {
      OneFound(headers, want, found);
    } else if found == [] {
      assert forall i :: 0 <= i < |headers| ==> headers[i] != want;
    } else {
      assert headers[found[0]] == want && headers[found[1]] == want && found[0] < found[1];
      assert forall i :: !OnlyAt(headers, want, i);
    }
  }

  predicate Growing(s: seq<nat>) { forall m, n :: 0 <= m < n < |s| ==> s[m] < s[n] }

  lemma OneFound(headers: seq<string>, want: string, found: seq<nat>)
    requires found == Occurrences(headers, want) && |found| == 1
    ensures OnlyAt(headers, want, found[0]) && want in headers
  {
    assert headers[found[0]] in headers;
  }

  lemma {:induction false} OccurrencesGrow(headers: seq<string>, want: string)
    ensures Growing(Occurrences(headers, want))
  {
    if headers != [] {
      var front := headers[..|headers| - 1];
      OccurrencesGrow(front, want);
      PushGrows(Occurrences(front, want), |front|);
    }
  }

  lemma PushGrows(s: seq<nat>, n: nat)
    requires Growing(s) && forall m :: 0 <= m < |s| ==> s[m] < n
    ensures Growing(s + [n]) && s + [] == s
  {}

  /** A mapping fails at the first column whose label no header carries, or several do, and says which of the two. */
  lemma {:induction false} MappingFaultIsFirst(headers: seq<string>, columns: seq<Column>) returns (c: nat)
    requires MapColumns(headers, columns).Err?
    ensures c < |columns| && MapColumn(headers, columns[c]).Err? && forall b :: 0 <= b < c ==> MapColumn(headers, columns[b]).Ok?
    ensures MapColumns(headers, columns) == Err(MapColumn(headers, columns[c]).error)
  {
    hide MapColumn;
    var last := |columns| - 1;
    if MapColumns(headers, columns[..last]).Err? {
      c := MappingFaultIsFirst(headers, columns[..last]);
    } else {
      c := last;
      AllMapped(headers, columns[..last]);
      assert forall b :: 0 <= b < last ==> columns[..last][b] == columns[b];
    }
  }

  lemma {:induction false} AllMapped(headers: seq<string>, columns: seq<Column>)
    requires MapColumns(headers, columns).Ok?
    ensures forall b :: 0 <= b < |columns| ==> MapColumn(headers, columns[b]).Ok?
  {
    hide MapColumn;
    if columns != [] {
      var last := |columns| - 1;
      AllMapped(headers, columns[..last]);
      assert forall b :: 0 <= b < last ==> columns[..last][b] == columns[b];
    }
  }

  lemma {:induction false} FaultSticks(headers: seq<string>, columns: seq<Column>, n: nat)
    requires n <= |columns| && MapColumns(headers, columns[..n]).Err?
    ensures MapColumns(headers, columns) == MapColumns(headers, columns[..n])
    decreases |columns|
  {
    if n == |columns| {
      assert columns[..n] == columns;
    } else {
      var front := columns[..|columns| - 1];
      assert front[..n] == columns[..n];
      FaultSticks(headers, front, n);
    }
  }

  // ----- the rows -----

  /** Where each column's cell is: under its header in rows of a known width, or at a given index. */
  datatype Layout = ByHeader(width: nat, at: seq<nat>) | ByIndex(at: seq<nat>)

  predicate Fits(layout: Layout, recipe: Recipe) {
    && |layout.at| == |recipe.columns|
    && KeyColumn(recipe.columns, recipe.key) < |recipe.columns|
    && (layout.ByHeader? ==> forall c :: 0 <= c < |layout.at| ==> layout.at[c] < layout.width)
  }

  function Suffix(recipe: Recipe, field: string): Option<string> {
    if field in recipe.strip then Some(recipe.strip[field]) else None
  }

  function Value(cell: Aria.Line, column: Column, recipe: Recipe, strip: Strip): Option<string> {
    strip(Aria.Clean(cell.name), Suffix(recipe, column.field))
  }

  predicate Reaches(cells: Row, at: seq<nat>) { forall c :: 0 <= c < |at| ==> at[c] < |cells| }

  function Data(cells: Row, at: seq<nat>, recipe: Recipe, strip: Strip): seq<Option<string>>
    requires |at| == |recipe.columns| && Reaches(cells, at)
  {
    seq(|at|, c requires 0 <= c < |at| => Value(cells[at[c]], recipe.columns[c], recipe, strip))
  }

  /** A row of plain cells that repeats the column labels. */
  predicate HeaderLike(cells: Row, at: seq<nat>, columns: seq<Column>)
    requires |at| == |columns| && Reaches(cells, at)
  {
    forall c :: 0 <= c < |at| ==> Aria.NormName(cells[at[c]].name) == Aria.Norm(columns[c].title)
  }

  datatype Verdict = Skip | Refuse(fault: Fault) | Keep(item: Item)

  function Keyed(data: seq<Option<string>>, k: nat): Verdict
    requires k < |data|
  {
    if data[k].None? || data[k].value == "" then Skip else Keep(Item(data[k].value, data))
  }

  function RowVerdict(row: Row, layout: Layout, recipe: Recipe, strip: Strip): Verdict
    requires Fits(layout, recipe)
  {
    var cells := WithRole(row, "cell");
    if cells == [] then Skip
    else if layout.ByHeader? && |cells| != layout.width then Refuse(CellCount)
    else if !Reaches(cells, layout.at) then Refuse(CellCount)
    else if layout.ByIndex? && HeaderLike(cells, layout.at, recipe.columns) then Skip
    else Keyed(Data(cells, layout.at, recipe, strip), KeyColumn(recipe.columns, recipe.key))
  }

  /** The kept rows in order, or the first refusal. */
  function Collect(rows: seq<Row>, layout: Layout, recipe: Recipe, strip: Strip): Result<seq<Item>, Fault>
    requires Fits(layout, recipe)
  {
    if rows == [] then Ok([])
    else
      var last := |rows| - 1;
      match Collect(rows[..last], layout, recipe, strip)
      case Err(f) => Err(f)
      case Ok(items) =>
        match RowVerdict(rows[last], layout, recipe, strip)
        case Skip => Ok(items)
        case Refuse(f) => Err(f)
        case Keep(item) => Ok(items + [item])
  }

  lemma {:induction false} RefusalSticks(rows: seq<Row>, layout: Layout, recipe: Recipe, strip: Strip, n: nat)
    requires Fits(layout, recipe)
    requires n <= |rows| && Collect(rows[..n], layout, recipe, strip).Err?
    ensures Collect(rows, layout, recipe, strip) == Collect(rows[..n], layout, recipe, strip)
    decreases |rows|
  {
    if n == |rows| {
      assert rows[..n] == rows;
    } else {
      var front := rows[..|rows| - 1];
      assert front[..n] == rows[..n];
      RefusalSticks(front, layout, recipe, strip, n);
    }
  }

  lemma CollectNone(rows: seq<Row>, layout: Layout, recipe: Recipe, strip: Strip)
    requires Fits(layout, recipe)
    ensures Collect(rows[..0], layout, recipe, strip) == Ok([])
  {}

  lemma CollectStep(rows: seq<Row>, n: nat, layout: Layout, recipe: Recipe, strip: Strip)
    requires Fits(layout, recipe) && n < |rows| && Collect(rows[..n], layout, recipe, strip).Ok?
    ensures var items := Collect(rows[..n], layout, recipe, strip).value;
            var v := RowVerdict(rows[n], layout, recipe, strip);
            Collect(rows[..n + 1], layout, recipe, strip)
            == if v.Skip? then Ok(items) else if v.Refuse? then Err(v.fault) else Ok(items + [v.item])
  {
    assert rows[..n + 1][..n] == rows[..n];
  }

  predicate DistinctKeys(items: seq<Item>) {
    forall i, j :: 0 <= i < j < |items| ==> items[i].key != items[j].key
  }

  function Finish(rows: seq<Row>, layout: Layout, recipe: Recipe, strip: Strip): Result<seq<Item>, Fault>
    requires Fits(layout, recipe)
  {
    match Collect(rows, layout, recipe, strip)
    case Err(f) => Err(f)
    case Ok(items) => if DistinctKeys(items) then Ok(items) else Err(DuplicateKey)
  }

  /** What both extractors promise for a table whose header is row `h`. */
  function UnderHeader(rows: seq<Row>, h: nat, recipe: Recipe, strip: Strip): Result<seq<Item>, Fault>
    requires RecipeFault(recipe).None? && h < |rows|
  {
    var headers := Headers(rows[h]);
    match MapColumns(headers, recipe.columns)
    case Err(f) => Err(f)
    case Ok(at) =>
      ColumnsAreUnique(headers, recipe.columns);
      Finish(rows, ByHeader(|headers|, at), recipe, strip)
  }

  // ----- tables without headers -----

  /** The cell index of every column: present, not negative, and used once. */
  predicate GoodIndexes(indexes: map<string, int>, columns: seq<Column>) {
    && (forall c :: 0 <= c < |columns| ==> columns[c].field in indexes && indexes[columns[c].field] >= 0)
    && (forall c, d :: 0 <= c < d < |columns| ==> indexes[columns[c].field] != indexes[columns[d].field])
  }

  function IndexesOf(indexes: map<string, int>, columns: seq<Column>): seq<nat>
    requires GoodIndexes(indexes, columns)
  {
    seq(|columns|, c requires 0 <= c < |columns| => indexes[columns[c].field])
  }

  method ValidateColumnIndexes(indexes: map<string, int>, columns: seq<Column>) returns (r: Result<seq<nat>, Fault>)
    ensures r == if GoodIndexes(indexes, columns) then Ok(IndexesOf(indexes, columns)) else Err(BadIndexes)
  {
    var seen: set<int> := {};
    var at: seq<nat> := [];
    for c := 0 to |columns|
      invariant |at| == c && GoodIndexes(indexes, columns[..c])
      invariant forall d :: 0 <= d < c ==> at[d] == indexes[columns[d].field] && at[d] in seen
      invariant forall n :: n in seen ==> exists d :: 0 <= d < c && at[d] == n
    {
      var field := columns[c].field;
      if field !in indexes || indexes[field] < 0 { return Err(BadIndexes); }
      var n := indexes[field];
      if n in seen {
        var d :| 0 <= d < c && at[d] == n;
        assert indexes[columns[d].field] == indexes[columns[c].field];
        return Err(BadIndexes);
      }
      seen := seen + {n};
      at := at + [n];
    }
    assert columns[..|columns|] == columns;
    assert at == IndexesOf(indexes, columns);
    return Ok(at);
  }

  // ----- the two extractors -----

  function ListRows(rows: seq<Row>, recipe: Recipe): Result<seq<Item>, Fault>
    requires RecipeFault(recipe).None?
  {
    var h := HeaderAt(rows);
    if h < |rows| then UnderHeader(rows, h, recipe, ListStrip)
    else if recipe.indexes.None? then Err(NoHeader)
    else if !GoodIndexes(recipe.indexes.value, recipe.columns) then Err(BadIndexes)
    else Finish(rows, ByIndex(IndexesOf(recipe.indexes.value, recipe.columns)), recipe, ListStrip)
  }

  function FlowRows(rows: seq<Row>, recipe: Recipe): Result<seq<Item>, Fault>
    requires RecipeFault(recipe).None?
  {
    var h := HeaderAt(rows);
    if h < |rows| then UnderHeader(rows, h, recipe, FlowStrip) else Err(NoHeader)
  }

  /** The rows of the one container the recipe names. */
  function TableRows(tree: string, recipe: Recipe): Result<seq<Row>, Fault> {
    if RecipeFault(recipe).Some? then Err(RecipeFault(recipe).value)
    else
      var lines := Aria.Parse(tree);
      var hits := Aria.NamedAt(lines, RoleOf(recipe), recipe.name);
      if |hits| == 0 then Err(NotFound)
      else if |hits| > 1 then Err(Ambiguous)
      else Ok(Aria.Rows(lines, hits[0], RowRole(recipe)))
  }

  function ListResult(tree: string, recipe: Recipe): Result<seq<Item>, Fault> {
    match TableRows(tree, recipe)
    case Err(f) => Err(f)
    case Ok(rows) => ListRows(rows, recipe)
  }

  function FlowResult(tree: string, recipe: Recipe): Result<seq<Item>, Fault> {
    match TableRows(tree, recipe)
    case Err(f) => Err(f)
    case Ok(rows) => FlowRows(rows, recipe)
  }

  method ExtractList(tree: string, recipe: Recipe) returns (r: Result<seq<Item>, Fault>)
    ensures r == ListResult(tree, recipe)
  {
    if recipe.name == "" { return Err(NoName); }
    if recipe.columns == [] { return Err(NoColumns); }
    var k := KeyColumn(recipe.columns, recipe.key);
    if recipe.key == "" || k == |recipe.columns| { return Err(BadKey); }
    var lines := Aria.Parse(tree);
    var hits := Aria.FindByRoleName(lines, RoleOf(recipe), recipe.name);
    if |hits| == 0 { return Err(NotFound); }
    if |hits| > 1 { return Err(Ambiguous); }
    var rows := Aria.RowsOf(lines, hits[0], RowRole(recipe));
    r := ListTable(rows, recipe);
  }

  method ListTable(rows: seq<Row>, recipe: Recipe) returns (r: Result<seq<Item>, Fault>)
    requires RecipeFault(recipe).None?
    ensures r == ListRows(rows, recipe)
  {
    hide MapColumns, Occurrences, HeaderAt, WithRole, Aria.Norm, Finish;
    var h := HeaderAt(rows);
    if h == |rows| && recipe.indexes.None? { return Err(NoHeader); }
    var layout;
    if h < |rows| {
      var headers := Headers(rows[h]);
      var at: seq<nat> := [];
      MapNone(headers, recipe.columns);
      for c := 0 to |recipe.columns|
        invariant MapColumns(headers, recipe.columns[..c]) == Ok(at)
      {
        MapStep(headers, recipe.columns, c);
        var found := Occurrences(headers, Aria.Norm(recipe.columns[c].title));
        if |found| != 1 {
          FaultSticks(headers, recipe.columns, c + 1);
          return Err(if |found| == 0 then MissingColumn(recipe.columns[c].field)
                     else AmbiguousColumn(recipe.columns[c].field));
        }
        at := at + [found[0]];
      }
      assert recipe.columns[..|recipe.columns|] == recipe.columns;
      ColumnsAreUnique(headers, recipe.columns);
      layout := ByHeader(|headers|, at);
    } else {
      var read := ValidateColumnIndexes(recipe.indexes.value, recipe.columns);
      if read.Err? { return Err(read.error); }
      layout := ByIndex(read.value);
    }
    r := ListItems(rows, layout, recipe);
  }

  method ListItems(rows: seq<Row>, layout: Layout, recipe: Recipe) returns (r: Result<seq<Item>, Fault>)
    requires Fits(layout, recipe)
    ensures r == Finish(rows, layout, recipe, ListStrip)
  {
    hide Collect, RowVerdict, Fits;
    CollectNone(rows, layout, recipe, ListStrip);
    var items: seq<Item> := [];
    for i := 0 to |rows|
      invariant Collect(rows[..i], layout, recipe, ListStrip) == Ok(items)
    {
      CollectStep(rows, i, layout, recipe, ListStrip);
      var verdict := ListRow(rows[i], layout, recipe);
      if verdict.Refuse? {
        RefusalSticks(rows, layout, recipe, ListStrip, i + 1);
        return Err(verdict.fault);
      }
      if verdict.Keep? { items := items + [verdict.item]; }
    }
    assert rows[..|rows|] == rows;
    var distinct := NoRepeat(items);
    r := if distinct then Ok(items) else Err(DuplicateKey);
  }

  /** The body of the loop over the rows. */
  method ListRow(row: Row, layout: Layout, recipe: Recipe) returns (v: Verdict)
    requires Fits(layout, recipe)
    ensures v == RowVerdict(row, layout, recipe, ListStrip)
  {
    var cells := WithRole(row, "cell");
    if cells == [] { return Skip; }
    if layout.ByHeader? {
      if |cells| != layout.width { return Refuse(CellCount); }
    } else {
      if !Reaches(cells, layout.at) { return Refuse(CellCount); }
      if HeaderLike(cells, layout.at, recipe.columns) { return Skip; }
    }
    var data := Data(cells, layout.at, recipe, ListStrip);
    var key := data[KeyColumn(recipe.columns, recipe.key)];
    if key.None? || key.value == "" { return Skip; }
    return Keep(Item(key.value, data));
  }

  method NoRepeat(items: seq<Item>) returns (ok: bool)
    ensures ok <==> DistinctKeys(items)
  {
    var seen: set<string> := {};
    for i := 0 to |items|
      invariant DistinctKeys(items[..i])
      invariant forall j :: 0 <= j < i ==> items[j].key in seen
      invariant forall s :: s in seen ==> exists j :: 0 <= j < i && items[j].key == s
    {
      if items[i].key in seen { return false; }
      seen := seen + {items[i].key};
    }
    assert items[..|items|] == items;
    return true;
  }

  method ExtractRecipeRows(tree: string, recipe: Recipe) returns (r: Result<seq<Item>, Fault>)
    ensures r == FlowResult(tree, recipe)
  {
    if recipe.name == "" { return Err(NoName); }
    if recipe.columns == [] { return Err(NoColumns); }
    var k := KeyColumn(recipe.columns, recipe.key);
    if recipe.key == "" || k == |recipe.columns| { return Err(BadKey); }
    var lines := Aria.Parse(tree);
    var hits := Aria.FindByRoleName(lines, RoleOf(recipe), recipe.name);
    if |hits| == 0 { return Err(NotFound); }
    if |hits| > 1 { return Err(Ambiguous); }
    var rows := Aria.RowsOf(lines, hits[0], RowRole(recipe));
    r := FlowTable(rows, recipe);
  }

  method FlowTable(rows: seq<Row>, recipe: Recipe) returns (r: Result<seq<Item>, Fault>)
    requires RecipeFault(recipe).None?
    ensures r == FlowRows(rows, recipe)
  {
    hide MapColumns, Occurrences, HeaderAt, WithRole, Aria.Norm, Finish;
    var h := HeaderAt(rows);
    if h == |rows| { return Err(NoHeader); }
    var headers := Headers(rows[h]);
    var at: seq<nat> := [];
    MapNone(headers, recipe.columns);
    for c := 0 to |recipe.columns|
      invariant MapColumns(headers, recipe.columns[..c]) == Ok(at)
    {
      MapStep(headers, recipe.columns, c);
      var found := Occurrences(headers, Aria.Norm(recipe.columns[c].title));
      if |found| != 1 {
        FaultSticks(headers, recipe.columns, c + 1);
        return Err(if |found| == 0 then MissingColumn(recipe.columns[c].field)
                   else AmbiguousColumn(recipe.columns[c].field));
      }
      at := at + [found[0]];
    }
    assert recipe.columns[..|recipe.columns|] == recipe.columns;
    ColumnsAreUnique(headers, recipe.columns);
    r := FlowItems(rows, |headers|, at, recipe);
  }

  method FlowItems(rows: seq<Row>, width: nat, at: seq<nat>, recipe: Recipe) returns (r: Result<seq<Item>, Fault>)
    requires Fits(ByHeader(width, at), recipe)
    ensures r == Finish(rows, ByHeader(width, at), recipe, FlowStrip)
  {
    hide Collect, RowVerdict, Fits;
    ghost var layout := ByHeader(width, at);
    CollectNone(rows, layout, recipe, FlowStrip);
    var items: seq<Item> := [];
    for i := 0 to |rows|
      invariant Collect(rows[..i], layout, recipe, FlowStrip) == Ok(items)
    {
      CollectStep(rows, i, layout, recipe, FlowStrip);
      var verdict := FlowRow(rows[i], width, at, recipe);
      if verdict.Refuse? {
        RefusalSticks(rows, layout, recipe, FlowStrip, i + 1);
        return Err(verdict.fault);
      }
      if verdict.Keep? { items := items + [verdict.item]; }
    }
    assert rows[..|rows|] == rows;
    var distinct := NoRepeat(items);
    r := if distinct then Ok(items) else Err(DuplicateKey);
  }

  method FlowRow(row: Row, width: nat, at: seq<nat>, recipe: Recipe) returns (v: Verdict)
    requires Fits(ByHeader(width, at), recipe)
    ensures v == RowVerdict(row, ByHeader(width, at), recipe, FlowStrip)
  {
    var cells := WithRole(row, "cell");
    if cells == [] { return Skip; }
    if |cells| != width { return Refuse(CellCount); }
    var data := Data(cells, at, recipe, FlowStrip);
    var key := data[KeyColumn(recipe.columns, recipe.key)];
    if key.None? || key.value == "" { return Skip; }
    return Keep(Item(key.value, data));
  }

  // ----- agreement -----

  lemma VerdictsAgree(row: Row, layout: Layout, recipe: Recipe)
    requires Fits(layout, recipe)
    ensures RowVerdict(row, layout, recipe, ListStrip) == RowVerdict(row, layout, recipe, FlowStrip)
  {
    var cells := WithRole(row, "cell");
    if Reaches(cells, layout.at) {
      forall c: nat | c < |layout.at|
        ensures Value(cells[layout.at[c]], recipe.columns[c], recipe, ListStrip)
             == Value(cells[layout.at[c]], recipe.columns[c], recipe, FlowStrip)
      {
        StripsAgree(cells[layout.at[c]].name, Suffix(recipe, recipe.columns[c].field));
      }
      assert Data(cells, layout.at, recipe, ListStrip) == Data(cells, layout.at, recipe, FlowStrip);
    }
  }

  lemma {:induction false} CollectionsAgree(rows: seq<Row>, layout: Layout, recipe: Recipe)
    requires Fits(layout, recipe)
    ensures Collect(rows, layout, recipe, ListStrip) == Collect(rows, layout, recipe, FlowStrip)
  {
    if rows != [] {
      CollectionsAgree(rows[..|rows| - 1], layout, recipe);
      VerdictsAgree(rows[|rows| - 1], layout, recipe);
    }
  }

  predicate SameOutcome(a: Result<seq<Item>, Fault>, b: Result<seq<Item>, Fault>) { a == b || (a.Err? && b.Err?) }

  predicate HasHeader(tree: string, recipe: Recipe) {
    var t := TableRows(tree, recipe);
    t.Ok? && HeaderAt(t.value) < |t.value|
  }

  lemma HeaderedAgree(rows: seq<Row>, h: nat, recipe: Recipe)
    requires RecipeFault(recipe).None? && h < |rows|
    ensures UnderHeader(rows, h, recipe, ListStrip) == UnderHeader(rows, h, recipe, FlowStrip)
  {
    var headers := Headers(rows[h]);
    var mapped := MapColumns(headers, recipe.columns);
    if mapped.Ok? {
      ColumnsAreUnique(headers, recipe.columns);
      CollectionsAgree(rows, ByHeader(|headers|, mapped.value), recipe);
    }
  }

  /** Where the container has a header row the two extractors return the same list or the same fault. */
  lemma ExtractorsAgree(tree: string, recipe: Recipe)
    requires HasHeader(tree, recipe)
    ensures ListResult(tree, recipe) == FlowResult(tree, recipe)
  {
    hide UnderHeader;
    var rows := TableRows(tree, recipe).value;
    HeaderedAgree(rows, HeaderAt(rows), recipe);
  }

  lemma RecipeFaultIff(recipe: Recipe)
    ensures var f := RecipeFault(recipe);
            && (f == Some(NoName) <==> recipe.name == "")
            && (f == Some(NoColumns) <==> recipe.name != "" && recipe.columns == [])
            && (f == Some(BadKey) <==> recipe.name != "" && recipe.columns != []
                                       && (recipe.key == "" || forall c :: 0 <= c < |recipe.columns| ==> recipe.columns[c].field != recipe.key))
            && (f.Some? ==> f.value in {NoName, NoColumns, BadKey})
  {}

  /** The lines of a snapshot that a recipe may mean: a table, or the role it gives, of its name. */
  predicate Meant(line: Aria.Line, recipe: Recipe) {
    line.role == (if recipe.role == "" then "table" else recipe.role) && Aria.NormName(line.name) == Aria.Norm(recipe.name)
  }

  lemma MeantIsNamed(line: Aria.Line, recipe: Recipe)
    ensures Meant(line, recipe) <==> Aria.Named(line, RoleOf(recipe), recipe.name)
  {}

  /** The container is the only line the recipe may mean; without one, or with several, there is a fault that says so. */
  lemma TableIsTheOnlyOne(tree: string, recipe: Recipe)
    requires RecipeFault(recipe).None?
    ensures var lines, r := Aria.Parse(tree), TableRows(tree, recipe);
            && (r == Err(NotFound) <==> forall i :: 0 <= i < |lines| ==> !Meant(lines[i], recipe))
            && (r.Ok? <==> exists i :: OnlyMeant(lines, recipe, i))
            && (forall i :: r.Ok? && OnlyMeant(lines, recipe, i) ==>
                  r.value == Aria.Rows(lines, i, if recipe.row == "" then "row" else recipe.row))
            && (r.Err? ==> r.error in {NotFound, Ambiguous})
  {
    var lines := Aria.Parse(tree);
    var hits := Aria.NamedAt(lines, RoleOf(recipe), recipe.name);
    TableByHits(tree, recipe, lines, hits);
    hide *;
    NoHit(lines, recipe, hits);
    if |hits| == 1 { OneHit(lines, recipe, hits); }
    if |hits| > 1 {
      forall i ensures !OnlyMeant(lines, recipe, i) { ManyHits(lines, recipe, hits, i); }
    }
    forall i | OnlyMeant(lines, recipe, i) && |hits| == 1 ensures i == hits[0] { OneIsMeant(lines, recipe, i, hits[0]); }
  }

  lemma OneIsMeant(lines: seq<Aria.Line>, recipe: Recipe, i: int, j: int)
    requires OnlyMeant(lines, recipe, i) && OnlyMeant(lines, recipe, j)
    ensures i == j
  {}

  lemma HitIffMeant(lines: seq<Aria.Line>, recipe: Recipe, hits: seq<nat>, i: nat)
    requires hits == Aria.NamedAt(lines, RoleOf(recipe), recipe.name) && i < |lines|
    ensures Meant(lines[i], recipe) <==> i in hits
  {
    MeantIsNamed(lines[i], recipe);
    hide Meant, Aria.Named, RoleOf;
  }

  lemma NoHit(lines: seq<Aria.Line>, recipe: Recipe, hits: seq<nat>)
    requires hits == Aria.NamedAt(lines, RoleOf(recipe), recipe.name)
    ensures hits == [] <==> forall i :: 0 <= i < |lines| ==> !Meant(lines[i], recipe)
    ensures hits == [] ==> forall i :: !OnlyMeant(lines, recipe, i)
  {
    assert hits != [] ==> hits[0] < |lines| && hits[0] in hits;
    hide Meant, Aria.NamedAt, RoleOf;
    forall i | 0 <= i < |lines| ensures Meant(lines[i], recipe) <==> i in hits { HitIffMeant(lines, recipe, hits, i); }
  }

  lemma OneHit(lines: seq<Aria.Line>, recipe: Recipe, hits: seq<nat>)
    requires hits == Aria.NamedAt(lines, RoleOf(recipe), recipe.name) && |hits| == 1
    ensures OnlyMeant(lines, recipe, hits[0])
  {
    assert hits[0] < |lines| && hits[0] in hits;
    hide Meant, Aria.NamedAt, RoleOf;
    forall i | 0 <= i < |lines| ensures Meant(lines[i], recipe) <==> i == hits[0] { HitIffMeant(lines, recipe, hits, i); }
  }

  lemma ManyHits(lines: seq<Aria.Line>, recipe: Recipe, hits: seq<nat>, i: int)
    requires hits == Aria.NamedAt(lines, RoleOf(recipe), recipe.name) && |hits| > 1
    ensures !OnlyMeant(lines, recipe, i)
  {
    assert hits[0] < hits[1] < |lines| && hits[0] in hits && hits[1] in hits;
    HitIffMeant(lines, recipe, hits, hits[0]);
    HitIffMeant(lines, recipe, hits, hits[1]);
    hide Meant, Aria.NamedAt, RoleOf;
  }

  predicate OnlyMeant(lines: seq<Aria.Line>, recipe: Recipe, i: int) {
    0 <= i < |lines| && Meant(lines[i], recipe) && forall j :: 0 <= j < |lines| && Meant(lines[j], recipe) ==> j == i
  }

  lemma TableByHits(tree: string, recipe: Recipe, lines: seq<Aria.Line>, hits: seq<nat>)
    requires RecipeFault(recipe).None? && lines == Aria.Parse(tree) && hits == Aria.NamedAt(lines, RoleOf(recipe), recipe.name)
    ensures var r := TableRows(tree, recipe);
            if hits == [] then r == Err(NotFound) else if |hits| > 1 then r == Err(Ambiguous)
            else r == Ok(Aria.Rows(lines, hits[0], if recipe.row == "" then "row" else recipe.row))
  {
    hide Aria.Parse, Aria.Rows, Aria.NamedAt, RecipeFault;
  }

  // ----- what an extracted list means -----

  /** Item `it` is what row `row` holds in the cells at `at`. */
  predicate ReadFrom(it: Item, row: Row, layout: Layout, recipe: Recipe, strip: Strip)
    requires Fits(layout, recipe)
  {
    var cells := WithRole(row, "cell");
    && (layout.ByHeader? ==> |cells| == layout.width)
    && Reaches(cells, layout.at) && |it.data| == |recipe.columns|
    && (forall c :: 0 <= c < |it.data| ==> it.data[c] == Value(cells[layout.at[c]], recipe.columns[c], recipe, strip))
    && it.key != "" && it.data[KeyColumn(recipe.columns, recipe.key)] == Some(it.key)
  }

  lemma KeptIsRead(row: Row, layout: Layout, recipe: Recipe, strip: Strip)
    requires Fits(layout, recipe) && RowVerdict(row, layout, recipe, strip).Keep?
    ensures ReadFrom(RowVerdict(row, layout, recipe, strip).item, row, layout, recipe, strip)
  {}

  /** `v` is what a cell of this name holds: the cleaned name, less exactly the suffix if it ends with it, or nothing. */
  ghost predicate Shows(name: Option<string>, suffix: Option<string>, v: Option<string>) {
    var shown := Aria.Clean(name);
    if shown.None? then v.None?
    else if suffix.None? || suffix.value == "" || !Text.EndsWith(shown.value, suffix.value) then v == shown
    else exists base: string :: shown.value == base + suffix.value && v == Aria.Clean(Some(base))
  }

  lemma StripShows(name: Option<string>, suffix: Option<string>)
    ensures Shows(name, suffix, ListStrip(Aria.Clean(name), suffix)) && Shows(name, suffix, FlowStrip(Aria.Clean(name), suffix))
  {
    StripsAgree(name, suffix);
    var shown := Aria.Clean(name);
    if shown.Some? && suffix.Some? && Text.EndsWith(shown.value, suffix.value) {
      var base := shown.value[..|shown.value| - |suffix.value|];
      assert shown.value == base + suffix.value;
      assert suffix.value != "" ==> ListStrip(shown, suffix) == Aria.Clean(Some(base));
    }
    hide Text.Trim, FlowStrip;
  }

  /** Every value of an extracted item, by either extractor, is what its own cell shows. */
  lemma ItemsShowTheCells(it: Item, row: Row, layout: Layout, recipe: Recipe)
    requires Fits(layout, recipe)
    requires ReadFrom(it, row, layout, recipe, ListStrip) || ReadFrom(it, row, layout, recipe, FlowStrip)
    ensures var cells := WithRole(row, "cell");
            && |it.data| == |recipe.columns| && Reaches(cells, layout.at)
            && forall c :: 0 <= c < |it.data| ==>
                 Shows(cells[layout.at[c]].name, Suffix(recipe, recipe.columns[c].field), it.data[c])
  {
    hide Shows, Aria.Clean;
    var cells := WithRole(row, "cell");
    forall c | 0 <= c < |it.data|
      ensures Shows(cells[layout.at[c]].name, Suffix(recipe, recipe.columns[c].field), it.data[c])
    {
      StripShows(cells[layout.at[c]].name, Suffix(recipe, recipe.columns[c].field));
    }
  }

  /** Under a header: which rows are refused, which are passed over, and which are kept. */
  lemma VerdictByHeader(row: Row, width: nat, at: seq<nat>, recipe: Recipe, strip: Strip)
    requires Fits(ByHeader(width, at), recipe)
    ensures var v, cells := RowVerdict(row, ByHeader(width, at), recipe, strip), WithRole(row, "cell");
            && (v.Refuse? <==> |cells| != 0 && |cells| != width)
            && (v.Keep? <==> |cells| == width && cells != [] && KeyIn(cells, at, recipe, strip) !in {None, Some("")})
  {
    hide WithRole, Value, KeyColumn;
    var cells, k := WithRole(row, "cell"), KeyColumn(recipe.columns, recipe.key);
    if cells != [] && |cells| == width {
      assert Reaches(cells, at);
      assert Data(cells, at, recipe, strip)[k] == KeyIn(cells, at, recipe, strip);
    }
  }

  /** What the key column shows in these cells. */
  function KeyIn(cells: Row, at: seq<nat>, recipe: Recipe, strip: Strip): Option<string>
    requires Fits(ByHeader(|cells|, at), recipe)
  {
    var k := KeyColumn(recipe.columns, recipe.key);
    Value(cells[at[k]], recipe.columns[k], recipe, strip)
  }

  lemma CollectBack(rows: seq<Row>, n: nat, layout: Layout, recipe: Recipe, strip: Strip)
    requires Fits(layout, recipe) && n < |rows| && Collect(rows[..n + 1], layout, recipe, strip).Ok?
    ensures Collect(rows[..n], layout, recipe, strip).Ok? && !RowVerdict(rows[n], layout, recipe, strip).Refuse?
  {
    assert rows[..n + 1][..n] == rows[..n];
  }

  /** `from` lists, in order, the rows before `n` that are kept, and the items read from them. */
  predicate Traced(from: seq<nat>, items: seq<Item>, rows: seq<Row>, n: nat, layout: Layout, recipe: Recipe, strip: Strip)
    requires Fits(layout, recipe) && n <= |rows|
  {
    && |from| == |items|
    && (forall m :: 0 <= m < |from| ==> from[m] < n && ReadFrom(items[m], rows[from[m]], layout, recipe, strip))
    && (forall m, o :: 0 <= m < o < |from| ==> from[m] < from[o])
    && (forall i :: 0 <= i < n ==> (i in from <==> RowVerdict(rows[i], layout, recipe, strip).Keep?))
    && (forall i :: 0 <= i < n ==> !RowVerdict(rows[i], layout, recipe, strip).Refuse?)
  }

  lemma InGrown(from: seq<nat>, n: nat)
    ensures forall i :: i in from + [n] <==> i in from || i == n
    ensures forall m :: 0 <= m < |from| ==> (from + [n])[m] == from[m]
  {}

  lemma TraceNone(rows: seq<Row>, layout: Layout, recipe: Recipe, strip: Strip)
    requires Fits(layout, recipe)
    ensures Collect(rows[..0], layout, recipe, strip) == Ok([]) && Traced([], [], rows, 0, layout, recipe, strip)
  {}

  lemma Grown(from: seq<nat>, items: seq<Item>, n: nat, item: Item)
    requires |from| == |items|
    ensures forall m :: 0 <= m < |from| ==> (items + [item])[m] == items[m]
    ensures (from + [n])[|from|] == n && (items + [item])[|from|] == item
  {}

  lemma TraceStep(from: seq<nat>, items: seq<Item>, rows: seq<Row>, n: nat, layout: Layout, recipe: Recipe, strip: Strip)
    requires Fits(layout, recipe) && n < |rows|
    requires Traced(from, items, rows, n, layout, recipe, strip)
    ensures RowVerdict(rows[n], layout, recipe, strip).Skip? ==> Traced(from, items, rows, n + 1, layout, recipe, strip)
    ensures RowVerdict(rows[n], layout, recipe, strip).Keep?
            ==> Traced(from + [n], items + [RowVerdict(rows[n], layout, recipe, strip).item],
                       rows, n + 1, layout, recipe, strip)
  {
    hide RowVerdict, ReadFrom, Fits;
    var v := RowVerdict(rows[n], layout, recipe, strip);
    if v.Keep? {
      KeptIsRead(rows[n], layout, recipe, strip);
      InGrown(from, n);
      Grown(from, items, n, v.item);
    }
  }

  /** The items are, in document order, exactly the rows the extractor keeps. */
  lemma {:induction false} ItemsAreRows(rows: seq<Row>, n: nat, layout: Layout, recipe: Recipe, strip: Strip)
    returns (from: seq<nat>)
    requires Fits(layout, recipe) && n <= |rows| && Collect(rows[..n], layout, recipe, strip).Ok?
    ensures Traced(from, Collect(rows[..n], layout, recipe, strip).value, rows, n, layout, recipe, strip)
  {
    hide RowVerdict, Collect, Fits, Traced;
    if n == 0 {
      from := [];
      TraceNone(rows, layout, recipe, strip);
    } else {
      CollectBack(rows, n - 1, layout, recipe, strip);
      from := ItemsAreRows(rows, n - 1, layout, recipe, strip);
      CollectStep(rows, n - 1, layout, recipe, strip);
      TraceStep(from, Collect(rows[..n - 1], layout, recipe, strip).value, rows, n - 1, layout, recipe, strip);
      if RowVerdict(rows[n - 1], layout, recipe, strip).Keep? { from := from + [n - 1]; }
    }
  }

  /**
  A list extracted under a header: keys distinct and not empty, every item read from its own row, in order, and
  every value taken from the one column whose normalised header is the normalised label.
  */
  lemma HeaderResult(tree: string, recipe: Recipe) returns (from: seq<nat>, layout: Layout)
    requires HasHeader(tree, recipe) && FlowResult(tree, recipe).Ok?
    ensures var rows, items := TableRows(tree, recipe).value, FlowResult(tree, recipe).value;
            var headers := Headers(rows[HeaderAt(rows)]);
            && DistinctKeys(items)
            && layout.ByHeader? && layout.width == |headers| && Fits(layout, recipe)
            && (forall c :: 0 <= c < |recipe.columns| ==> OnlyAt(headers, Aria.Norm(recipe.columns[c].title), layout.at[c]))
            && Traced(from, items, rows, |rows|, layout, recipe, FlowStrip)
  {
    var rows := TableRows(tree, recipe).value;
    var headers := Headers(rows[HeaderAt(rows)]);
    ColumnsAreUnique(headers, recipe.columns);
    layout := ByHeader(|headers|, MapColumns(headers, recipe.columns).value);
    assert rows[..|rows|] == rows;
    from := ItemsAreRows(rows, |rows|, layout, recipe, FlowStrip);
  }

  // ----- where the extractors differ -----

  /** The key a row of plain cells shows at the given cell indexes; none if it has no cells or repeats the labels. */
  function KeyByIndex(row: Row, at: seq<nat>, recipe: Recipe): Option<string>
    requires Fits(ByIndex(at), recipe) && (WithRole(row, "cell") == [] || Reaches(WithRole(row, "cell"), at))
  {
    var cells := WithRole(row, "cell");
    if cells == [] || HeaderLike(cells, at, recipe.columns) then None
    else
      var k := KeyColumn(recipe.columns, recipe.key);
      var v := Value(cells[at[k]], recipe.columns[k], recipe, ListStrip);
      if v == Some("") then None else v
  }

  predicate AllReach(rows: seq<Row>, at: seq<nat>) {
    forall i :: 0 <= i < |rows| ==> WithRole(rows[i], "cell") == [] || Reaches(WithRole(rows[i], "cell"), at)
  }

  predicate KeysDiffer(rows: seq<Row>, at: seq<nat>, recipe: Recipe)
    requires Fits(ByIndex(at), recipe) && AllReach(rows, at)
  {
    forall i, j :: 0 <= i < j < |rows| && KeyByIndex(rows[i], at, recipe).Some?
      ==> KeyByIndex(rows[i], at, recipe) != KeyByIndex(rows[j], at, recipe)
  }

  /**
  The table can be read by index: the recipe maps every column to its own cell, every row with cells is long enough,
  and no key shows twice.
  */
  predicate ReadableByIndex(rows: seq<Row>, recipe: Recipe)
    requires RecipeFault(recipe).None?
  {
    && recipe.indexes.Some? && GoodIndexes(recipe.indexes.value, recipe.columns)
    && var at := IndexesOf(recipe.indexes.value, recipe.columns);
       AllReach(rows, at) && KeysDiffer(rows, at, recipe)
  }

  lemma VerdictByIndex(row: Row, at: seq<nat>, recipe: Recipe)
    requires Fits(ByIndex(at), recipe)
    ensures var v, cells := RowVerdict(row, ByIndex(at), recipe, ListStrip), WithRole(row, "cell");
            && (v.Refuse? <==> cells != [] && !Reaches(cells, at))
            && (!v.Refuse? ==> (v.Keep? <==> KeyByIndex(row, at, recipe).Some?)
                               && (v.Keep? ==> KeyByIndex(row, at, recipe) == Some(v.item.key)))
  {}

  lemma {:induction false} CollectOkIff(rows: seq<Row>, n: nat, layout: Layout, recipe: Recipe, strip: Strip)
    requires Fits(layout, recipe) && n <= |rows|
    ensures Collect(rows[..n], layout, recipe, strip).Ok?
            <==> forall i :: 0 <= i < n ==> !RowVerdict(rows[i], layout, recipe, strip).Refuse?
  {
    hide RowVerdict, Fits, Collect;
    if n == 0 {
      CollectNone(rows, layout, recipe, strip);
    } else {
      CollectOkIff(rows, n - 1, layout, recipe, strip);
      if Collect(rows[..n - 1], layout, recipe, strip).Ok? {
        CollectStep(rows, n - 1, layout, recipe, strip);
      } else {
        assert rows[..n][..n - 1] == rows[..n - 1];
        RefusalSticks(rows[..n], layout, recipe, strip, n - 1);
      }
    }
  }

  /** The collected keys are distinct exactly when no two rows show the same one. */
  lemma DistinctIff(rows: seq<Row>, at: seq<nat>, recipe: Recipe)
    requires Fits(ByIndex(at), recipe) && AllReach(rows, at)
    requires Collect(rows, ByIndex(at), recipe, ListStrip).Ok?
    ensures DistinctKeys(Collect(rows, ByIndex(at), recipe, ListStrip).value) <==> KeysDiffer(rows, at, recipe)
  {
    var layout := ByIndex(at);
    assert rows[..|rows|] == rows;
    var from := ItemsAreRows(rows, |rows|, layout, recipe, ListStrip);
    var items := Collect(rows, layout, recipe, ListStrip).value;
    TracedKeys(rows, at, recipe, from, items);
    hide Collect, RowVerdict, Traced, ReadFrom, AllReach, KeyByIndex;
    if KeysDiffer(rows, at, recipe) {
      forall n, m | 0 <= n < m < |items| ensures items[n].key != items[m].key {
        assert KeyByIndex(rows[from[n]], at, recipe) != KeyByIndex(rows[from[m]], at, recipe);
      }
    }
    if DistinctKeys(items) {
      forall i, j | 0 <= i < j < |rows| && KeyByIndex(rows[i], at, recipe).Some?
        ensures KeyByIndex(rows[i], at, recipe) != KeyByIndex(rows[j], at, recipe)
      {
        if KeyByIndex(rows[j], at, recipe).Some? {
          var n :| 0 <= n < |from| && from[n] == i;
          var m :| 0 <= m < |from| && from[m] == j;
          assert n != m && items[n].key != items[m].key;
        }
      }
    }
  }

  lemma TracedKeys(rows: seq<Row>, at: seq<nat>, recipe: Recipe, from: seq<nat>, items: seq<Item>)
    requires Fits(ByIndex(at), recipe) && AllReach(rows, at)
    requires Traced(from, items, rows, |rows|, ByIndex(at), recipe, ListStrip)
    ensures |from| == |items| && (forall n, m :: 0 <= n < m < |from| ==> from[n] < from[m])
    ensures forall n :: 0 <= n < |from| ==> from[n] < |rows| && KeyByIndex(rows[from[n]], at, recipe) == Some(items[n].key)
    ensures forall i :: 0 <= i < |rows| && KeyByIndex(rows[i], at, recipe).Some? ==> i in from
  {
    forall i | 0 <= i < |rows| ensures i in from <==> KeyByIndex(rows[i], at, recipe).Some? {
      VerdictByIndex(rows[i], at, recipe);
    }
    forall n | 0 <= n < |from| ensures KeyByIndex(rows[from[n]], at, recipe) == Some(items[n].key) {
      assert from[n] in from;
      VerdictByIndex(rows[from[n]], at, recipe);
      ReadKey(items[n], rows[from[n]], at, recipe);
    }
  }

  lemma ReadKey(item: Item, row: Row, at: seq<nat>, recipe: Recipe)
    requires Fits(ByIndex(at), recipe) && ReadFrom(item, row, ByIndex(at), recipe, ListStrip)
    requires RowVerdict(row, ByIndex(at), recipe, ListStrip).Keep?
    ensures RowVerdict(row, ByIndex(at), recipe, ListStrip).item.key == item.key
  {}

  /** A table without a header is extracted by the command-line tool exactly when it can be read by index. */
  lemma HeaderlessIff(rows: seq<Row>, recipe: Recipe)
    requires RecipeFault(recipe).None? && HeaderAt(rows) == |rows|
    ensures ListRows(rows, recipe).Ok? <==> ReadableByIndex(rows, recipe)
    ensures FlowRows(rows, recipe) == Err(NoHeader)
  {
    if recipe.indexes.Some? && GoodIndexes(recipe.indexes.value, recipe.columns) {
      var at := IndexesOf(recipe.indexes.value, recipe.columns);
      var layout := ByIndex(at);
      assert rows[..|rows|] == rows;
      CollectOkIff(rows, |rows|, layout, recipe, ListStrip);
      forall i | 0 <= i < |rows|
        ensures RowVerdict(rows[i], layout, recipe, ListStrip).Refuse?
                <==> WithRole(rows[i], "cell") != [] && !Reaches(WithRole(rows[i], "cell"), at)
      {
        VerdictByIndex(rows[i], at, recipe);
      }
      hide RowVerdict, Collect, GoodIndexes, Reaches, WithRole, KeysDiffer;
      if AllReach(rows, at) { DistinctIff(rows, at, recipe); }
    }
  }

  /**
  On every snapshot and recipe the two extractors have different outcomes exactly when the table is found, has no
  header, and can be read by index; then the command-line tool lists it and the web interface fails.
  */
  lemma ExtractorsDifferIff(tree: string, recipe: Recipe)
    ensures !SameOutcome(ListResult(tree, recipe), FlowResult(tree, recipe))
            <==> (TableRows(tree, recipe).Ok?
                  && HeaderAt(TableRows(tree, recipe).value) == |TableRows(tree, recipe).value|
                  && ReadableByIndex(TableRows(tree, recipe).value, recipe))
  {
    if TableRows(tree, recipe).Ok? {
      var rows := TableRows(tree, recipe).value;
      TableMeansRecipe(tree, recipe);
      hide TableRows, ListRows, FlowRows, ReadableByIndex, HeaderAt, UnderHeader;
      if HeaderAt(rows) < |rows| { ExtractorsAgree(tree, recipe); } else { HeaderlessIff(rows, recipe); }
    }
  }

  lemma TableMeansRecipe(tree: string, recipe: Recipe)
    requires TableRows(tree, recipe).Ok?
    ensures RecipeFault(recipe).None?
  {}
}
