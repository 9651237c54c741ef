/** A snapshot on which the two extractors differ: one row, one cell, no header. */
module RowExtractorsExample {
  import opened Wrappers
  import opened RowExtractors
  import Aria
  import Text

  const SNAPSHOT := "- table \"T\"\n  - row\n    - cell \"a\""

  const RECIPE := Recipe("T", "table", "row", [Column("id", "ID")], "id", map[], Some(map["id" := 0]))

  // ----- the text is a printed tree -----

  function Leaf(): Aria.Node { Aria.Node("cell", Some("a"), "", []) }
  function RowNode(): Aria.Node { Aria.Node("row", None, "", [Leaf()]) }
  function TableNode(): Aria.Node { Aria.Node("table", Some("T"), "", [RowNode()]) }

  function TableLine(): Aria.Line { Aria.Line(0, "table", Some("T")) }
  function RowLine(): Aria.Line { Aria.Line(2, "row", None) }
  function CellLine(): Aria.Line { Aria.Line(4, "cell", Some("a")) }

  lemma Single(n: Aria.Node, depth: nat)
    ensures Aria.PrintAll([n], depth) == [Aria.Print(n, depth)] + Aria.PrintAll(n.children, depth + 1)
    ensures Aria.FlattenAll([n], depth) == [Aria.LineOf(n, depth)] + Aria.FlattenAll(n.children, depth + 1)
    ensures Aria.AllPrintable([n]) <==> Aria.Printable(n) && Aria.AllPrintable(n.children)
  {
    hide Aria.Print, Aria.Printable;
    assert [n][1..] == [];
    assert Aria.PrintAll([], depth) == [] && Aria.FlattenAll([], depth) == [];
  }

  lemma Printed()
    ensures Aria.Print(TableNode(), 0) == "- table \"T\""
    ensures Aria.Print(RowNode(), 1) == "  - row"
    ensures Aria.Print(Leaf(), 2) == "    - cell \"a\""
  {
    assert Aria.Blanks(0) == "" && Aria.Blanks(2) == "  " && Aria.Blanks(4) == "    ";
  }

  lemma AreWords()
    ensures Aria.Printable(TableNode()) && Aria.Printable(RowNode()) && Aria.Printable(Leaf())
  {
    assert '\n' !in "T" && '\n' !in "a" && '"' !in "" && '\n' !in "";
  }

  lemma Forest(leaf: Aria.Node, row: Aria.Node, table: Aria.Node)
    requires leaf.children == [] && row.children == [leaf] && table.children == [row]
    ensures Aria.PrintAll([table], 0) == [Aria.Print(table, 0), Aria.Print(row, 1), Aria.Print(leaf, 2)]
    ensures Aria.FlattenAll([table], 0) == [Aria.LineOf(table, 0), Aria.LineOf(row, 1), Aria.LineOf(leaf, 2)]
    ensures Aria.Printable(table) && Aria.Printable(row) && Aria.Printable(leaf) ==> Aria.AllPrintable([table])
  {
    hide Aria.Print, Aria.Printable, Aria.LineOf;
    assert Aria.PrintAll([], 3) == [] && Aria.FlattenAll([], 3) == [] && Aria.AllPrintable([]);
    Single(leaf, 2);
    Single(row, 1);
    Single(table, 0);
  }

  lemma JoinThree(a: string, b: string, c: string)
    ensures Text.Join([a, b, c], '\n') == a + ['\n'] + (b + ['\n'] + c)
  {
    assert [a, b, c][1..] == [b, c] && [b, c][1..] == [c];
    assert Text.Join([b, c], '\n') == b + ['\n'] + Text.Join([c], '\n');
  }

  lemma LinesOf(a: string, b: string, c: string, text: string, leaf: Aria.Node, row: Aria.Node, table: Aria.Node)
    requires leaf.children == [] && row.children == [leaf] && table.children == [row]
    requires Aria.Printable(table) && Aria.Printable(row) && Aria.Printable(leaf)
    requires Aria.Print(table, 0) == a && Aria.Print(row, 1) == b && Aria.Print(leaf, 2) == c
    requires text == a + ['\n'] + (b + ['\n'] + c)
    ensures Aria.Parse(text) == [Aria.LineOf(table, 0), Aria.LineOf(row, 1), Aria.LineOf(leaf, 2)]
  {
    hide *;
    Forest(leaf, row, table);
    JoinThree(a, b, c);
    Aria.ParseOfPrint([table]);
  }

  lemma SnapshotLines()
    ensures Aria.Parse(SNAPSHOT) == [TableLine(), RowLine(), CellLine()]
  {
    Printed();
    AreWords();
    hide Aria.Print, Aria.Printable, Aria.Parse;
    LinesOf("- table \"T\"", "  - row", "    - cell \"a\"", SNAPSHOT, Leaf(), RowNode(), TableNode());
  }

  // ----- the table and its row -----

  lemma OnlyFirst(lines: seq<Aria.Line>, role: string, name: string)
    requires lines != [] && Aria.Named(lines[0], role, name)
    requires forall i :: 1 <= i < |lines| ==> lines[i].role != role
    ensures Aria.NamedAt(lines, role, name) == [0]
  {
    hide Aria.NamedAt, Aria.NormName, Aria.Norm;
    var hits := Aria.NamedAt(lines, role, name);
    assert 0 in hits;
    forall n | 0 <= n < |hits| ensures hits[n] == 0 { assert Aria.Named(lines[hits[n]], role, name); }
    if |hits| > 1 { TwoHits(hits); }
  }

  lemma TwoHits(hits: seq<nat>)
    requires |hits| > 1 && forall i, j :: 0 <= i < j < |hits| ==> hits[i] < hits[j]
    ensures hits[0] != hits[1]
  {}

  lemma RowBelow(table: Aria.Line, row: Aria.Line, cell: Aria.Line)
    requires table.indent == 0 && row.indent == 2 && cell.indent == 4 && row.role == "row" && cell.role != "row"
    ensures Aria.Rows([table, row, cell], 0, "row") == [[cell]]
  {
    var lines := [table, row, cell];
    assert lines[3..] == [];
    Aria.ScanDone(lines[3..], 0, "row");
    Aria.ScanDone(lines[3..], 2, "row");
    hide Aria.RowsFrom, Aria.ChildrenFrom;
    Aria.RowsStep(lines, 2, 0, "row", []);
    assert Aria.RowsFrom(lines[2..], 0, "row") == [] + [];
    Aria.ChildrenStep(lines, 2, 2, []);
    assert Aria.ChildrenFrom(lines[2..], 2) == [cell] + [];
    assert Aria.ChildrenFrom(lines[2..], 2) == [cell];
    Aria.RowsStep(lines, 1, 0, "row", []);
    assert lines[1].indent == 2 && lines[1 + 1..] == lines[2..];
    assert Aria.RowsFrom(lines[1..], 0, "row") == [[cell]] + [];
  }

  lemma FoundRows(tree: string, recipe: Recipe, lines: seq<Aria.Line>, rows: seq<Row>)
    requires RecipeFault(recipe).None? && Aria.Parse(tree) == lines && lines != []
    requires Aria.NamedAt(lines, RoleOf(recipe), recipe.name) == [0] && Aria.Rows(lines, 0, RowRole(recipe)) == rows
    ensures TableRows(tree, recipe) == Ok(rows)
  {
    hide Aria.Parse, Aria.NamedAt, Aria.Rows, RecipeFault;
  }

  lemma TableIsFound()
    ensures TableRows(SNAPSHOT, RECIPE) == Ok([[CellLine()]])
  {
    hide Aria.Parse, Aria.Rows, Aria.NamedAt, TableRows;
    SnapshotLines();
    RowBelow(TableLine(), RowLine(), CellLine());
    OnlyFirst([TableLine(), RowLine(), CellLine()], "table", "T");
    FoundRows(SNAPSHOT, RECIPE, [TableLine(), RowLine(), CellLine()], [[CellLine()]]);
  }

  // ----- reading it -----

  lemma OneCell(cell: Aria.Line)
    requires cell.role == "cell"
    ensures WithRole([cell], "columnheader") == [] && WithRole([cell], "cell") == [cell]
    ensures HeaderAt([[cell]]) == 1
  {
    assert [cell][1..] == [] && [[cell]][1..] == [];
  }

  lemma CellIsKept()
    ensures RowVerdict([CellLine()], ByIndex([0]), RECIPE, ListStrip) == Keep(Item("a", [Some("a")]))
  {
    var cells, at: seq<nat> := [CellLine()], [0];
    OneCell(CellLine());
    hide WithRole;
    assert Aria.Norm("a") == "a" && Aria.Norm("ID")[0] == 'I';
    assert Aria.Clean(Some("a")) == Some("a") by { assert Text.Trim("a") == "a"; }
    hide Aria.Norm, Aria.Clean;
    assert Aria.NormName(cells[at[0]].name) != Aria.Norm(RECIPE.columns[0].title);
    assert !HeaderLike(cells, at, RECIPE.columns);
    assert Value(cells[at[0]], RECIPE.columns[0], RECIPE, ListStrip) == Some("a");
    assert Data(cells, at, RECIPE, ListStrip) == [Some("a")];
    assert KeyColumn(RECIPE.columns, RECIPE.key) == 0;
  }

  lemma OneRow(row: Row, layout: Layout, recipe: Recipe, item: Item)
    requires Fits(layout, recipe) && RowVerdict(row, layout, recipe, ListStrip) == Keep(item)
    ensures Finish([row], layout, recipe, ListStrip) == Ok([item])
  {
    hide RowVerdict, Fits;
    CollectNone([row], layout, recipe, ListStrip);
    CollectStep([row], 0, layout, recipe, ListStrip);
    assert [row][..0 + 1] == [row] && [] + [item] == [item];
    hide Collect;
  }

  lemma TableIsRead()
    ensures ListRows([[CellLine()]], RECIPE) == Ok([Item("a", [Some("a")])])
    ensures FlowRows([[CellLine()]], RECIPE) == Err(NoHeader)
  {
    OneCell(CellLine());
    CellIsKept();
    assert IndexesOf(RECIPE.indexes.value, RECIPE.columns) == [0];
    OneRow([CellLine()], ByIndex([0]), RECIPE, Item("a", [Some("a")]));
    hide WithRole, HeaderAt, Finish, RowVerdict;
  }

  /** The command-line tool lists the row, the web interface fails. */
  lemma ExtractorsDiffer()
    ensures ListResult(SNAPSHOT, RECIPE) == Ok([Item("a", [Some("a")])])
    ensures FlowResult(SNAPSHOT, RECIPE) == Err(NoHeader)
  {
    TableIsFound();
    TableIsRead();
    hide ListRows, FlowRows, TableRows;
  }
}
