/** The shared parser for ARIA snapshots: indented lines, containers, and the rows inside a container. */
module Aria {
  import opened Wrappers
  import Text

  datatype Line = Line(indent: nat, role: string, name: Option<string>)

  // ----- one line -----

  predicate IsWord(c: char) { 'a' <= c <= 'z' || 'A' <= c <= 'Z' || '0' <= c <= '9' || c == '_' }

  /** How many leading characters satisfy `\s`. */
  function Spaces(s: string): (n: nat)
    ensures n <= |s|
  {
    if s != [] && Text.IsSpace(s[0]) then 1 + Spaces(s[1..]) else 0
  }

  function WordPrefix(s: string): string {
    if s != [] && IsWord(s[0]) then [s[0]] + WordPrefix(s[1..]) else []
  }

  function FirstQuote(s: string): (r: nat)
    ensures r <= |s|
  {
    if s == [] || s[0] == '"' then 0 else 1 + FirstQuote(s[1..])
  }

  /** The index of the last quote, or the length when there is none. */
  function LastQuote(s: string): (r: nat)
    ensures r <= |s|
  {
    if '"' !in s then |s|
    else if s[|s| - 1] == '"' then |s| - 1
    else var i := LastQuote(s[..|s| - 1]); if i < |s| - 1 then i else |s|
  }

  /** The span from the first to the last quote. */
  function NameOf(s: string): Option<string> {
    var q, q2 := FirstQuote(s), LastQuote(s);
    if q < q2 < |s| then Some(s[q + 1..q2]) else None
  }

  function ParseLine(raw: string): Option<Line> {
    var indent := Spaces(raw);
    var rest := raw[indent..];
    if rest == [] || rest[0] != '-' then None
    else
      var gap := Spaces(rest[1..]);
      var role := WordPrefix(rest[1..][gap..]);
      if gap == 0 || role == [] then None else Some(Line(indent, role, NameOf(raw)))
  }

  function LineSeq(raw: string): seq<Line> {
    match ParseLine(raw) case Some(l) => [l] case None => []
  }

  function ParseLines(raws: seq<string>): seq<Line> {
    if raws == [] then []
    else LineSeq(raws[0]) + ParseLines(raws[1..])
  }

  function Parse(tree: string): seq<Line> { ParseLines(Text.Split(tree, '\n')) }

  // ----- names -----

  /** All white space removed. */
  function Norm(s: string): string {
    if s == [] then [] else (if Text.IsSpace(s[0]) then [] else [s[0]]) + Norm(s[1..])
  }

  /** Normalising takes out the white space and nothing else. */
  lemma {:induction false} NormTakesOutSpaces(s: string)
    ensures forall c :: c in Norm(s) <==> c in s && !Text.IsSpace(c)
    ensures (forall c :: c in s ==> !Text.IsSpace(c)) ==> Norm(s) == s
  {
    hide Text.IsSpace;
    if s != [] {
      NormTakesOutSpaces(s[1..]);
      assert s == [s[0]] + s[1..];
    }
  }

  /** And it keeps the order of what is left. */
  lemma {:induction false} NormConcat(a: string, b: string)
    ensures Norm(a + b) == Norm(a) + Norm(b)
  {
    hide Text.IsSpace;
    if a == [] {
      assert a + b == b;
    } else {
      NormConcat(a[1..], b);
      NormFirst(a, a[1..] + b);
      NormFirst(a, a[1..]);
      assert [a[0]] + (a[1..] + b) == a + b && [a[0]] + a[1..] == a;
      hide Norm;
    }
  }

  lemma NormFirst(a: string, rest: string)
    requires a != []
    ensures Norm([a[0]] + rest) == (if Text.IsSpace(a[0]) then [] else [a[0]]) + Norm(rest)
  {
    assert ([a[0]] + rest)[1..] == rest;
  }

  function NormName(name: Option<string>): string { if name.Some? then Norm(name.value) else [] }

  /** Trimmed, or nothing. */
  function Clean(name: Option<string>): Option<string> {
    if name.None? || Text.Trim(name.value) == [] then None else Some(Text.Trim(name.value))
  }

  predicate Named(l: Line, role: string, name: string) { l.role == role && NormName(l.name) == Norm(name) }

  /** The positions of the lines with this role and normalised name, in order. */
  function NamedAt(lines: seq<Line>, role: string, name: string): (hits: seq<nat>)
    ensures forall i :: 0 <= i < |hits| ==> hits[i] < |lines| && Named(lines[hits[i]], role, name)
    ensures forall i, j :: 0 <= i < j < |hits| ==> hits[i] < hits[j]
    ensures forall k :: 0 <= k < |lines| && Named(lines[k], role, name) ==> k in hits
  {
    if lines == [] then []
    else
      var last := |lines| - 1;
      NamedAt(lines[..last], role, name) + (if Named(lines[last], role, name) then [last] else [])
  }

  method FindByRoleName(lines: seq<Line>, role: string, name: string) returns (hits: seq<nat>)
    ensures hits == NamedAt(lines, role, name)
  {
    hits := [];
    for i := 0 to |lines|
      invariant hits == NamedAt(lines[..i], role, name)
    {
      assert lines[..i + 1][..i] == lines[..i];
      if Named(lines[i], role, name) { hits := hits + [i]; }
    }
    assert lines[..|lines|] == lines;
  }

  // ----- rows of a container -----

  /** The lines one level below a row, up to the end of its subtree. */
  function ChildrenFrom(rest: seq<Line>, rowIndent: nat): seq<Line> {
    if rest == [] || rest[0].indent <= rowIndent then []
    else (if rest[0].indent == rowIndent + 2 then [rest[0]] else []) + ChildrenFrom(rest[1..], rowIndent)
  }

  function RowsFrom(rest: seq<Line>, baseIndent: nat, role: string): seq<seq<Line>> {
    if rest == [] || rest[0].indent <= baseIndent then []
    else (if rest[0].role == role then [ChildrenFrom(rest[1..], rest[0].indent)] else [])
         + RowsFrom(rest[1..], baseIndent, role)
  }

  function Rows(lines: seq<Line>, container: nat, role: string): seq<seq<Line>>
    requires container < |lines|
  {
    RowsFrom(lines[container + 1..], lines[container].indent, role)
  }

  lemma ChildrenStep(lines: seq<Line>, j: nat, row: nat, more: seq<Line>)
    requires j < |lines| && lines[j].indent > row && more == ChildrenFrom(lines[j + 1..], row)
    ensures ChildrenFrom(lines[j..], row) == (if lines[j].indent == row + 2 then [lines[j]] else []) + more
  {
    assert lines[j..][1..] == lines[j + 1..];
  }

  lemma RowsStep(lines: seq<Line>, j: nat, base: nat, role: string, more: seq<seq<Line>>)
    requires j < |lines| && lines[j].indent > base && more == RowsFrom(lines[j + 1..], base, role)
    ensures RowsFrom(lines[j..], base, role)
            == (if lines[j].role == role then [ChildrenFrom(lines[j + 1..], lines[j].indent)] else []) + more
  {
    assert lines[j..][1..] == lines[j + 1..];
  }

  lemma ScanDone(rest: seq<Line>, bound: nat, role: string)
    requires rest == [] || rest[0].indent <= bound
    ensures ChildrenFrom(rest, bound) == [] && RowsFrom(rest, bound, role) == []
  {}

  lemma Regroup<T>(done: seq<T>, part: seq<T>, rest: seq<T>)
    ensures done + (part + rest) == (done + part) + rest
  {}

  method RowsOf(lines: seq<Line>, container: nat, role: string) returns (rows: seq<seq<Line>>)
    requires container < |lines|
    ensures rows == Rows(lines, container, role)
  {
    hide ChildrenFrom, RowsFrom;
    var baseIndent := lines[container].indent;
    rows := [];
    var i := container + 1;
    while i < |lines| && lines[i].indent > baseIndent
      invariant container < i <= |lines|
      invariant rows + RowsFrom(lines[i..], baseIndent, role) == Rows(lines, container, role)
    {
      ghost var tail := RowsFrom(lines[i + 1..], baseIndent, role);
      RowsStep(lines, i, baseIndent, role, tail);
      if lines[i].role == role {
        var rowIndent := lines[i].indent;
        var children := [];
        var j := i + 1;
        ghost var all := ChildrenFrom(lines[i + 1..], rowIndent);
        while j < |lines| && lines[j].indent > rowIndent
          invariant i < j <= |lines|
          invariant children + ChildrenFrom(lines[j..], rowIndent) == all
        {
          ghost var more := ChildrenFrom(lines[j + 1..], rowIndent);
          ChildrenStep(lines, j, rowIndent, more);
          if lines[j].indent == rowIndent + 2 {
            Regroup(children, [lines[j]], more);
            children := children + [lines[j]];
          }
          j := j + 1;
        }
        ScanDone(lines[j..], rowIndent, role);
        assert children == all;
        Regroup(rows, [children], tail);
        rows := rows + [children];
      }
      i := i + 1;
    }
    ScanDone(lines[i..], baseIndent, role);
  }

  // ----- trees -----

  datatype Node = Node(role: string, name: Option<string>, attributes: string, children: seq<Node>)

  function LineOf(n: Node, depth: nat): Line { Line(2 * depth, n.role, n.name) }

  function Flatten(n: Node, depth: nat): seq<Line>
    decreases n, 0
  {
    [LineOf(n, depth)] + FlattenAll(n.children, depth + 1)
  }

  /** A forest in pre-order, two spaces per level. */
  function FlattenAll(ns: seq<Node>, depth: nat): seq<Line>
    decreases ns, 1
  {
    if ns == [] then [] else Flatten(ns[0], depth) + FlattenAll(ns[1..], depth)
  }

  function ChildLines(ns: seq<Node>, depth: nat): seq<Line> {
    seq(|ns|, i requires 0 <= i < |ns| => LineOf(ns[i], depth))
  }

  function RowsBelow(n: Node, depth: nat, role: string): seq<seq<Line>>
    decreases n, 0
  {
    (if n.role == role then [ChildLines(n.children, depth + 1)] else []) + RowsIn(n.children, depth + 1, role)
  }

  /** In document order, every node of the forest with the row role, nested ones too, as the list of its direct children. */
  function RowsIn(ns: seq<Node>, depth: nat, role: string): seq<seq<Line>>
    decreases ns, 1
  {
    if ns == [] then [] else RowsBelow(ns[0], depth, role) + RowsIn(ns[1..], depth, role)
  }

  /** What follows a subtree at `depth`: nothing, or a line no deeper than it. */
  predicate Ends(post: seq<Line>, depth: nat) { post == [] || post[0].indent <= 2 * depth }

  lemma {:induction false} FirstIndent(ns: seq<Node>, depth: nat, post: seq<Line>)
    requires Ends(post, depth)
    ensures Ends(FlattenAll(ns, depth) + post, depth)
  {}

  lemma FirstLine(ns: seq<Node>, depth: nat, post: seq<Line>)
    requires ns != []
    ensures FlattenAll(ns, depth) + post
            == [LineOf(ns[0], depth)] + (FlattenAll(ns[0].children, depth + 1) + (FlattenAll(ns[1..], depth) + post))
  {
    var below, rest := FlattenAll(ns[0].children, depth + 1), FlattenAll(ns[1..], depth);
    assert FlattenAll(ns, depth) == ([LineOf(ns[0], depth)] + below) + rest;
  }

  /** Scanning a forest below a row keeps the lines one level down and skips deeper ones. */
  lemma {:induction false} ChildrenOfForest(ns: seq<Node>, depth: nat, row: nat, post: seq<Line>)
    requires row < depth
    ensures ChildrenFrom(FlattenAll(ns, depth) + post, 2 * row)
            == (if depth == row + 1 then ChildLines(ns, depth) else []) + ChildrenFrom(post, 2 * row)
    decreases ns, 1
  {
    if ns == [] {
      assert FlattenAll(ns, depth) + post == post;
    } else {
      hide ChildrenFrom, FlattenAll, ChildLines, LineOf;
      var after := FlattenAll(ns[1..], depth) + post;
      ChildrenOfTree(ns, depth, row, post);
      ChildrenOfForest(ns[0].children, depth + 1, row, after);
      ChildrenOfForest(ns[1..], depth, row, post);
      ChildLinesStep(ns, depth);
      Regroup([LineOf(ns[0], depth)], ChildLines(ns[1..], depth), ChildrenFrom(post, 2 * row));
    }
  }

  /** The first tree of a forest: its own line, if it is one level down, and then what the scan finds behind it. */
  lemma ChildrenOfTree(ns: seq<Node>, depth: nat, row: nat, post: seq<Line>)
    requires ns != [] && row < depth
    ensures ChildrenFrom(FlattenAll(ns, depth) + post, 2 * row)
            == (if depth == row + 1 then [LineOf(ns[0], depth)] else [])
               + ChildrenFrom(FlattenAll(ns[0].children, depth + 1) + (FlattenAll(ns[1..], depth) + post), 2 * row)
  {
    hide ChildrenFrom, FlattenAll;
    var behind := FlattenAll(ns[0].children, depth + 1) + (FlattenAll(ns[1..], depth) + post);
    var all := FlattenAll(ns, depth) + post;
    FirstLine(ns, depth, post);
    assert all[0..] == all && all[1..] == behind && all[0] == LineOf(ns[0], depth);
    ChildrenStep(all, 0, 2 * row, ChildrenFrom(behind, 2 * row));
  }

  lemma ChildLinesStep(ns: seq<Node>, depth: nat)
    requires ns != []
    ensures ChildLines(ns, depth) == [LineOf(ns[0], depth)] + ChildLines(ns[1..], depth)
  {}

  /** The row scan over a forest, whatever follows it. */
  lemma {:induction false} RowsOfForest(ns: seq<Node>, depth: nat, base: nat, role: string, post: seq<Line>)
    requires base < depth && Ends(post, depth)
    ensures RowsFrom(FlattenAll(ns, depth) + post, 2 * base, role) == RowsIn(ns, depth, role) + RowsFrom(post, 2 * base, role)
    decreases ns, 1
  {
    if ns == [] {
      assert FlattenAll(ns, depth) + post == post;
    } else {
      var below := FlattenAll(ns[0].children, depth + 1);
      var after := FlattenAll(ns[1..], depth) + post;
      RowsOfForest(ns[0].children, depth + 1, base, role, after) by { FirstIndent(ns[1..], depth, post); }
      RowsOfForest(ns[1..], depth, base, role, post);
      hide ChildrenFrom, RowsFrom, RowsIn, ChildLines, FlattenAll;
      RowsOfTree(ns, depth, base, role, post);
      RowsInStep(ns, depth, role, RowsFrom(post, 2 * base, role));
    }
  }

  /** The first tree of a forest: its own row, if it is one, and then what the scan finds behind its first line. */
  lemma {:induction false} RowsOfTree(ns: seq<Node>, depth: nat, base: nat, role: string, post: seq<Line>)
    requires ns != [] && base < depth && Ends(post, depth)
    ensures RowsFrom(FlattenAll(ns, depth) + post, 2 * base, role)
            == (if ns[0].role == role then [ChildLines(ns[0].children, depth + 1)] else [])
               + RowsFrom(FlattenAll(ns[0].children, depth + 1) + (FlattenAll(ns[1..], depth) + post), 2 * base, role)
  {
    var below := FlattenAll(ns[0].children, depth + 1);
    var after := FlattenAll(ns[1..], depth) + post;
    var all := FlattenAll(ns, depth) + post;
    FirstLine(ns, depth, post);
    FirstIndent(ns[1..], depth, post);
    hide ChildrenFrom, RowsFrom, ChildLines, FlattenAll;
    assert all[0..] == all && all[1..] == below + after;
    ChildrenOfForest(ns[0].children, depth + 1, depth, after);
    ScanDone(after, 2 * depth, role);
    assert ChildrenFrom(all[1..], 2 * depth) == ChildLines(ns[0].children, depth + 1);
    RowsStep(all, 0, 2 * base, role, RowsFrom(below + after, 2 * base, role));
  }

  lemma RowsInStep(ns: seq<Node>, depth: nat, role: string, after: seq<seq<Line>>)
    requires ns != []
    ensures RowsIn(ns, depth, role) + after
            == (if ns[0].role == role then [ChildLines(ns[0].children, depth + 1)] else [])
               + (RowsIn(ns[0].children, depth + 1, role) + (RowsIn(ns[1..], depth, role) + after))
  {}

  /** The node, and its depth, at each position of the pre-order. */
  function NodeAt(ns: seq<Node>, depth: nat, i: nat): (Node, nat)
    requires i < |FlattenAll(ns, depth)|
    decreases ns, 1
  {
    if i == 0 then (ns[0], depth)
    else if i < |Flatten(ns[0], depth)| then NodeAt(ns[0].children, depth + 1, i - 1)
    else NodeAt(ns[1..], depth, i - |Flatten(ns[0], depth)|)
  }

  /** From any position the listing continues with that node's subtree and then something no deeper. */
  lemma {:induction false} ListingAt(ns: seq<Node>, depth: nat, i: nat, post: seq<Line>) returns (after: seq<Line>)
    requires i < |FlattenAll(ns, depth)| && Ends(post, depth)
    ensures var (n, e) := NodeAt(ns, depth, i);
            (FlattenAll(ns, depth) + post)[i..] == Flatten(n, e) + after && Ends(after, e)
    decreases ns, 1
  {
    assert ns != [];
    var first, rest := Flatten(ns[0], depth), FlattenAll(ns[1..], depth);
    var below := FlattenAll(ns[0].children, depth + 1);
    var all := FlattenAll(ns, depth) + post;
    assert all == first + (rest + post) && first == [LineOf(ns[0], depth)] + below;
    FirstIndent(ns[1..], depth, post);
    hide Flatten, FlattenAll, LineOf;
    if i == 0 {
      after := rest + post;
    } else if i < |first| {
      assert all[1..] == below + (rest + post);
      after := ListingAt(ns[0].children, depth + 1, i - 1, rest + post);
      assert all[i..] == all[1..][i - 1..];
    } else {
      after := ListingAt(ns[1..], depth, i - |first|, post);
      assert all[i..] == (rest + post)[i - |first|..];
    }
  }

  /**
  For every forest and every node in it: the rows found at the node are exactly its descendants with the row
  role, in document order, each with exactly its direct children.
  */
  lemma RowsAreDescendants(ns: seq<Node>, i: nat, role: string)
    requires i < |FlattenAll(ns, 0)|
    ensures var (n, e) := NodeAt(ns, 0, i);
            Rows(FlattenAll(ns, 0), i, role) == RowsIn(n.children, e + 1, role)
  {
    var lines := FlattenAll(ns, 0);
    var after := ListingAt(ns, 0, i, []);
    assert lines + [] == lines;
    var (n, e) := NodeAt(ns, 0, i);
    assert lines[i..] == [LineOf(n, e)] + (FlattenAll(n.children, e + 1) + after);
    assert lines[i] == lines[i..][0] == LineOf(n, e);
    assert lines[i + 1..] == lines[i..][1..] == FlattenAll(n.children, e + 1) + after;
    RowsOfForest(n.children, e + 1, e, role, after);
  }

  // ----- the text of a snapshot -----

  /** A role is a word; a name has no line break; attributes hold no quote and do not extend the role. */
  predicate Printable(n: Node) {
    && n.role != [] && (forall i :: 0 <= i < |n.role| ==> IsWord(n.role[i]))
    && (n.name.Some? ==> '\n' !in n.name.value)
    && '"' !in n.attributes && '\n' !in n.attributes && (n.attributes == [] || !IsWord(n.attributes[0]))
  }

  predicate AllPrintable(ns: seq<Node>)
    decreases ns
  {
    ns == [] || (Printable(ns[0]) && AllPrintable(ns[0].children) && AllPrintable(ns[1..]))
  }

  function Blanks(n: nat): string { seq(n, i => ' ') }

  function Quoted(name: Option<string>): string {
    if name.Some? then " \"" + name.value + "\"" else ""
  }

  function Print(n: Node, depth: nat): string {
    Blanks(2 * depth) + "- " + n.role + Quoted(n.name) + n.attributes
  }

  function PrintAll(ns: seq<Node>, depth: nat): seq<string>
    decreases ns
  {
    if ns == [] then []
    else [Print(ns[0], depth)] + PrintAll(ns[0].children, depth + 1) + PrintAll(ns[1..], depth)
  }

  lemma {:induction false} SpacesOfBlanks(n: nat, rest: string)
    requires rest == [] || !Text.IsSpace(rest[0])
    ensures Spaces(Blanks(n) + rest) == n
  {
    if n == 0 { assert Blanks(n) + rest == rest; }
    else {
      SpacesOfBlanks(n - 1, rest);
      assert (Blanks(n) + rest)[1..] == Blanks(n - 1) + rest;
    }
  }

  lemma {:induction false} WordOf(word: string, rest: string)
    requires (forall i :: 0 <= i < |word| ==> IsWord(word[i])) && (rest == [] || !IsWord(rest[0]))
    ensures WordPrefix(word + rest) == word
  {
    if word == [] { assert word + rest == rest; }
    else {
      WordOf(word[1..], rest);
      assert (word + rest)[1..] == word[1..] + rest;
      assert [word[0]] + word[1..] == word;
    }
  }

  lemma {:induction false} FirstQuoteAfter(a: string, b: string)
    requires '"' !in a
    ensures FirstQuote(a + ['"'] + b) == |a|
  {
    var s := a + ['"'] + b;
    if a != [] {
      assert s[0] == a[0] && a[0] in a;
      FirstQuoteAfter(a[1..], b);
      assert s[1..] == a[1..] + ['"'] + b;
    }
  }

  lemma {:induction false} LastQuoteBefore(a: string, b: string)
    requires '"' !in b
    ensures LastQuote(a + ['"'] + b) == |a|
  {
    var s := a + ['"'] + b;
    assert s[|a|] == '"';
    if b != [] {
      assert s[|s| - 1] == b[|b| - 1] && b[|b| - 1] in b;
      LastQuoteBefore(a, b[..|b| - 1]);
      assert s[..|s| - 1] == a + ['"'] + b[..|b| - 1];
    }
  }

  lemma NoQuoteNoName(s: string)
    requires '"' !in s
    ensures NameOf(s).None?
  {}

  lemma NameBetweenQuotes(a: string, name: string, b: string)
    requires '"' !in a && '"' !in b
    ensures NameOf(a + ['"'] + name + ['"'] + b) == Some(name)
  {
    var s := a + ['"'] + name + ['"'] + b;
    FirstQuoteAfter(a, name + ['"'] + b);
    assert s == a + ['"'] + (name + ['"'] + b);
    LastQuoteBefore(a + ['"'] + name, b);
    assert s[|a| + 1..|a| + 1 + |name|] == name;
  }

  lemma PrintedName(n: Node, depth: nat)
    requires Printable(n)
    ensures NameOf(Print(n, depth)) == n.name
  {
    var lead := Blanks(2 * depth) + "- " + n.role;
    assert '"' !in n.role;
    assert '"' !in lead;
    if n.name.Some? {
      NameBetweenQuotes(lead + " ", n.name.value, n.attributes);
      assert Print(n, depth) == (lead + " ") + ['"'] + n.name.value + ['"'] + n.attributes;
    } else {
      assert Print(n, depth) == lead + n.attributes;
      NoQuoteNoName(Print(n, depth));
    }
  }

  lemma PrintedParts(n: Node, depth: nat, tail: string, rest: string)
    requires Printable(n) && tail == Quoted(n.name) + n.attributes && rest == "- " + n.role + tail
    ensures Print(n, depth) == Blanks(2 * depth) + rest
    ensures rest[0] == '-' && rest[1..] == Blanks(1) + (n.role + tail)
    ensures IsWord(n.role[0]) && !Text.IsSpace(n.role[0]) && (tail == [] || !IsWord(tail[0]))
  {
    PrintedEnds(n, tail);
    hide Printable, Quoted, IsWord;
    assert Blanks(1) == " ";
    assert rest == "- " + (n.role + tail);
    hide Blanks;
  }

  lemma PrintedEnds(n: Node, tail: string)
    requires Printable(n) && tail == Quoted(n.name) + n.attributes
    ensures n.role != [] && IsWord(n.role[0]) && !Text.IsSpace(n.role[0]) && (tail == [] || !IsWord(tail[0]))
  {}

  lemma PrintedLine(n: Node, depth: nat)
    requires Printable(n)
    ensures ParseLine(Print(n, depth)) == Some(LineOf(n, depth))
  {
    var raw := Print(n, depth);
    var tail := Quoted(n.name) + n.attributes;
    var rest := "- " + n.role + tail;
    PrintedParts(n, depth, tail, rest);
    PrintedName(n, depth);
    assert forall i :: 0 <= i < |n.role| ==> IsWord(n.role[i]);
    hide Print, Quoted, Printable, NameOf, Spaces, WordPrefix, IsWord;
    SpacesOfBlanks(2 * depth, rest);
    assert raw[2 * depth..] == rest;
    SpacesOfBlanks(1, n.role + tail);
    assert rest[1..][1..] == n.role + tail;
    WordOf(n.role, tail);
  }

  lemma ParseFirst(raws: seq<string>, first: seq<Line>, rest: seq<Line>)
    requires raws != [] && first == LineSeq(raws[0]) && rest == ParseLines(raws[1..])
    ensures ParseLines(raws) == first + rest
  {}

  lemma {:induction false} ParseConcat(a: seq<string>, b: seq<string>)
    ensures ParseLines(a + b) == ParseLines(a) + ParseLines(b)
  {
    hide ParseLine;
    if a == [] {
      assert a + b == b;
      assert ParseLines(a) == [];
    } else {
      ParseConcat(a[1..], b);
      assert (a + b)[1..] == a[1..] + b;
      var first, rest, more := LineSeq(a[0]), ParseLines(a[1..]), ParseLines(b);
      ParseFirst(a, first, rest);
      ParseFirst(a + b, first, rest + more);
      Regroup(first, rest, more);
    }
  }

  lemma ParseOne(raw: string, l: Line)
    requires ParseLine(raw) == Some(l)
    ensures ParseLines([raw]) == [l]
  {
    ParseFirst([raw], [l], []);
  }

  lemma PrintParts(ns: seq<Node>, depth: nat)
    requires ns != []
    ensures PrintAll(ns, depth)
            == ([Print(ns[0], depth)] + PrintAll(ns[0].children, depth + 1)) + PrintAll(ns[1..], depth)
  {}

  lemma {:induction false} ParsePrinted(ns: seq<Node>, depth: nat)
    requires AllPrintable(ns)
    ensures ParseLines(PrintAll(ns, depth)) == FlattenAll(ns, depth)
    decreases ns
  {
    if ns != [] {
      var first, below, rest := [Print(ns[0], depth)], PrintAll(ns[0].children, depth + 1), PrintAll(ns[1..], depth);
      ParsePrinted(ns[0].children, depth + 1);
      ParsePrinted(ns[1..], depth);
      PrintedLine(ns[0], depth);
      ParseOne(first[0], LineOf(ns[0], depth));
      PrintParts(ns, depth);
      ParseConcat(first + below, rest);
      ParseConcat(first, below);
    }
  }

  lemma PrintHasNoBreak(n: Node, depth: nat)
    requires Printable(n)
    ensures '\n' !in Print(n, depth)
  {
    assert '\n' !in n.role;
    assert '\n' !in Blanks(2 * depth);
    assert '\n' !in Quoted(n.name);
  }

  lemma {:induction false} NoBreaks(ns: seq<Node>, depth: nat)
    requires AllPrintable(ns)
    ensures forall i :: 0 <= i < |PrintAll(ns, depth)| ==> '\n' !in PrintAll(ns, depth)[i]
    decreases ns
  {
    if ns != [] {
      var first, below, rest := [Print(ns[0], depth)], PrintAll(ns[0].children, depth + 1), PrintAll(ns[1..], depth);
      NoBreaks(ns[0].children, depth + 1);
      NoBreaks(ns[1..], depth);
      PrintHasNoBreak(ns[0], depth);
      PrintParts(ns, depth);
    }
  }

  /** Printing a forest and parsing the text gives its listing back. */
  lemma ParseOfPrint(ns: seq<Node>)
    requires AllPrintable(ns)
    ensures Parse(Text.Join(PrintAll(ns, 0), '\n')) == FlattenAll(ns, 0)
  {
    ParsePrinted(ns, 0);
    NoBreaks(ns, 0);
    if ns == [] {
      assert Text.Split("", '\n') == [""] && [""][1..] == [];
    } else {
      Text.SplitJoin(PrintAll(ns, 0), '\n');
    }
  }

  /** From the snapshot text to the rows of any container in it. */
  lemma RowsFromText(ns: seq<Node>, i: nat, role: string)
    requires AllPrintable(ns) && i < |FlattenAll(ns, 0)|
    ensures var lines := Parse(Text.Join(PrintAll(ns, 0), '\n'));
            var (n, e) := NodeAt(ns, 0, i);
            |lines| == |FlattenAll(ns, 0)| && Rows(lines, i, role) == RowsIn(n.children, e + 1, role)
  {
    ParseOfPrint(ns);
    RowsAreDescendants(ns, i, role);
  }
}
