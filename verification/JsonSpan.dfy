/** Pulling the first JSON object out of a model reply: the brace scanner, over texts of RFC 8259. */
module JsonSpan {
  import opened Wrappers
  import Text

  // ----- the scanner -----

  /** The scanner's variables. */
  datatype Scan = Scan(depth: int, inStr: bool, esc: bool)

  function Advance(st: Scan, ch: char): Scan {
    if st.inStr then
      if st.esc then st.(esc := false)
      else if ch == '\\' then st.(esc := true)
      else if ch == '"' then st.(inStr := false)
      else st
    else if ch == '"' then st.(inStr := true)
    else if ch == '{' then st.(depth := st.depth + 1)
    else if ch == '}' then st.(depth := st.depth - 1)
    else st
  }

  predicate Closes(st: Scan, ch: char) { !st.inStr && ch == '}' && st.depth == 1 }

  /** How many characters the scanner takes from `rest` until the brace that closes the span. */
  function Span(rest: string, st: Scan): (n: Option<nat>)
    ensures n.Some? ==> 1 <= n.value <= |rest| && rest[n.value - 1] == '}'
  {
    if rest == [] then None
    else if Closes(st, rest[0]) then Some(1)
    else match Span(rest[1..], Advance(st, rest[0])) case None => None case Some(n) => Some(n + 1)
  }

  function Plus(n: nat, rest: Option<nat>): Option<nat> {
    match rest case None => None case Some(m) => Some(n + m)
  }

  lemma SpanOfNothing(st: Scan)
    ensures Span([], st) == None
  {}

  lemma SpanStep(text: string, i: nat, st: Scan)
    requires i < |text|
    ensures Span(text[i..], st)
            == if Closes(st, text[i]) then Some(1) else Plus(1, Span(text[i + 1..], Advance(st, text[i])))
  {
    assert text[i..][1..] == text[i + 1..];
  }

  lemma SpanCons(ch: char, rest: string, text: string, st: Scan)
    requires text == [ch] + rest
    ensures Span(text, st) == if Closes(st, ch) then Some(1) else Plus(1, Span(rest, Advance(st, ch)))
  {
    assert text[1..] == rest;
  }

  const START := Scan(0, false, false)

  /** The selected text: from the first brace to the one that balances it. */
  function Selected(text: string): Option<string> {
    var start := Text.IndexOf(text, '{');
    match Span(text[start..], START)
    case None => None
    case Some(n) => Some(text[start..start + n])
  }

  /** Where the selected text stands: its start and its length. */
  function Place(text: string): Option<(nat, nat)> {
    var start := Text.IndexOf(text, '{');
    match Span(text[start..], START)
    case None => None
    case Some(n) => Some((start, n))
  }

  /** `parse` stands for the host's JSON parser, absent where it throws. */
  method ExtractJson<V>(text: string, parse: string -> Option<V>) returns (r: Option<V>)
    ensures r == match Selected(text) case None => None case Some(span) => parse(span)
  {
    var start := Text.IndexOf(text, '{');
    hide Span, Text.IndexOf;
    if start == |text| { SpanOfNothing(START); return None; }
    var depth, inStr, esc := 0, false, false;
    var i := start;
    while i < |text|
      invariant start <= i <= |text|
      invariant Span(text[start..], START) == Plus(i - start, Span(text[i..], Scan(depth, inStr, esc)))
    {
      var ch := text[i];
      SpanStep(text, i, Scan(depth, inStr, esc));
      if inStr {
        if esc { esc := false; }
        else if ch == '\\' { esc := true; }
        else if ch == '"' { inStr := false; }
      } else if ch == '"' {
        inStr := true;
      } else if ch == '{' {
        depth := depth + 1;
      } else if ch == '}' {
        depth := depth - 1;
        if depth == 0 { return parse(text[start..i + 1]); }
      }
      i := i + 1;
    }
    SpanOfNothing(Scan(depth, inStr, esc));
    return None;
  }

  // ----- the texts of RFC 8259 -----

  predicate IsBlank(ws: string) { forall i :: 0 <= i < |ws| ==> ws[i] in " \t\n\r" }

  predicate IsHex(c: char) { '0' <= c <= '9' || 'a' <= c <= 'f' || 'A' <= c <= 'F' }

  /** One character of a string (section 7): as it is, a short escape, or a `\u` escape. */
  datatype StringChar = Unescaped(c: char) | Escaped(c: char) | Unicode(hex: string)

  predicate GoodChar(x: StringChar) {
    match x
    case Unescaped(c) => c as int >= 0x20 && c != '"' && c != '\\'
    case Escaped(c) => c in "\"\\/bfnrt"
    case Unicode(hex) => |hex| == 4 && forall i :: 0 <= i < 4 ==> IsHex(hex[i])
  }

  function CharText(x: StringChar): string {
    match x
    case Unescaped(c) => [c]
    case Escaped(c) => ['\\', c]
    case Unicode(hex) => "\\u" + hex
  }

  type Chars = seq<StringChar>

  predicate GoodChars(xs: Chars) { forall i :: 0 <= i < |xs| ==> GoodChar(xs[i]) }

  function CharsText(xs: Chars): string { if xs == [] then "" else CharText(xs[0]) + CharsText(xs[1..]) }

  /** Section 6. */
  datatype Number = Number(minus: bool, whole: string, frac: Option<string>, exp: Option<Exponent>)
  datatype Exponent = Exponent(upper: bool, sign: string, digits: string)

  predicate Digits(s: string) { s != [] && forall i :: 0 <= i < |s| ==> Text.IsDigit(s[i]) }

  predicate GoodNumber(n: Number) {
    && Digits(n.whole) && (n.whole == "0" || n.whole[0] != '0')
    && (n.frac.Some? ==> Digits(n.frac.value))
    && (n.exp.Some? ==> n.exp.value.sign in {"", "+", "-"} && Digits(n.exp.value.digits))
  }

  function NumberText(n: Number): string {
    (if n.minus then "-" else "") + n.whole
    + (if n.frac.Some? then "." + n.frac.value else "")
    + (if n.exp.Some? then (if n.exp.value.upper then "E" else "e") + n.exp.value.sign + n.exp.value.digits else "")
  }

  datatype Json =
    | Null | True | False
    | Num(number: Number)
    | Str(chars: Chars)
    | Arr(blank: string, items: Items)
    | Obj(blank: string, members: Members)

  /** Array elements with the white space around them. */
  datatype Items = NoItems | Item(before: string, value: Json, after: string, rest: Items)

  /** Object members with the white space around the name, the colon and the value. */
  datatype Members =
    | NoMembers
    | Member(before: string, name: Chars, gap: string, lead: string, value: Json, after: string, rest: Members)

  predicate Good(v: Json) {
    match v
    case Num(n) => GoodNumber(n)
    case Str(xs) => GoodChars(xs)
    case Arr(blank, items) => IsBlank(blank) && GoodItems(items)
    case Obj(blank, members) => IsBlank(blank) && GoodMembers(members)
    case _ => true
  }

  predicate GoodItems(items: Items) {
    match items
    case NoItems => true
    case Item(before, v, after, rest) => IsBlank(before) && Good(v) && IsBlank(after) && GoodItems(rest)
  }

  predicate GoodMembers(members: Members) {
    match members
    case NoMembers => true
    case Member(before, name, gap, lead, v, after, rest) =>
      && IsBlank(before) && GoodChars(name) && IsBlank(gap) && IsBlank(lead) && Good(v) && IsBlank(after)
      && GoodMembers(rest)
  }

  function StringText(xs: Chars): string { "\"" + CharsText(xs) + "\"" }

  function Print(v: Json): string {
    match v
    case Null => "null"
    case True => "true"
    case False => "false"
    case Num(n) => NumberText(n)
    case Str(xs) => StringText(xs)
    case Arr(blank, items) => "[" + (blank + ItemsText(items)) + "]"
    case Obj(blank, members) => "{" + (blank + MembersText(members)) + "}"
  }

  function ItemsText(items: Items): string {
    match items
    case NoItems => ""
    case Item(before, v, after, rest) =>
      before + (Print(v) + ((after + (if rest.NoItems? then "" else ",")) + ItemsText(rest)))
  }

  function MembersText(members: Members): string {
    match members
    case NoMembers => ""
    case Member(before, name, gap, lead, v, after, rest) =>
      before + (StringText(name)
                + ((gap + ":" + lead) + (Print(v) + ((after + (if rest.NoMembers? then "" else ",")) + MembersText(rest)))))
  }

  // ----- passing over texts -----

  /** The scanner passes over `t` in this state and is in the same state behind it. */
  predicate PassesIn(t: string, st: Scan, rest: string) {
    Span(t + rest, st) == Plus(|t|, Span(rest, st))
  }

  lemma ConcatPasses(a: string, b: string, st: Scan, rest: string)
    requires PassesIn(a, st, b + rest) && PassesIn(b, st, rest)
    ensures PassesIn(a + b, st, rest)
  {
    hide Span;
    assert (a + b) + rest == a + (b + rest);
  }

  predicate Passes(t: string, depth: int, rest: string) { PassesIn(t, Scan(depth, false, false), rest) }

  predicate IsQuiet(t: string) { '"' !in t && '{' !in t && '}' !in t }

  lemma {:induction false} QuietPasses(t: string, depth: int, rest: string)
    requires IsQuiet(t)
    ensures Passes(t, depth, rest)
  {
    if t == [] {
      assert t + rest == rest;
    } else {
      assert t[0] in t;
      QuietPasses(t[1..], depth, rest);
      assert (t + rest)[1..] == t[1..] + rest;
    }
  }

  lemma PassesConcat(a: string, b: string, depth: int, rest: string)
    requires Passes(a, depth, b + rest) && Passes(b, depth, rest)
    ensures Passes(a + b, depth, rest)
  {
    ConcatPasses(a, b, Scan(depth, false, false), rest);
  }

  lemma CharStep(x: StringChar, depth: int, rest: string)
    requires GoodChar(x)
    ensures PassesIn(CharText(x), Scan(depth, true, false), rest)
  {
    hide PassesIn;
    match x
    case Unescaped(c) => OneInside(c, depth, rest);
    case Escaped(c) => PairInside(c, depth, rest);
    case Unicode(hex) =>
      PairInside('u', depth, hex + rest);
      HexPasses(hex, depth, rest);
      ConcatPasses("\\u", hex, Scan(depth, true, false), rest);
  }

  lemma OneInside(c: char, depth: int, rest: string)
    requires c != '"' && c != '\\'
    ensures PassesIn([c], Scan(depth, true, false), rest)
  {
    SpanCons(c, rest, [c] + rest, Scan(depth, true, false));
  }

  lemma PairInside(c: char, depth: int, rest: string)
    ensures PassesIn(['\\', c], Scan(depth, true, false), rest)
  {
    hide Span;
    SpanCons('\\', [c] + rest, ['\\', c] + rest, Scan(depth, true, false));
    SpanCons(c, rest, [c] + rest, Scan(depth, true, true));
  }

  lemma {:induction false} HexPasses(hex: string, depth: int, rest: string)
    requires forall i :: 0 <= i < |hex| ==> IsHex(hex[i])
    ensures PassesIn(hex, Scan(depth, true, false), rest)
  {
    if hex == [] {
      assert hex + rest == rest;
    } else {
      HexPasses(hex[1..], depth, rest);
      assert (hex + rest)[1..] == hex[1..] + rest;
    }
  }

  lemma {:induction false} InsideString(xs: Chars, depth: int, rest: string)
    requires GoodChars(xs)
    ensures PassesIn(CharsText(xs), Scan(depth, true, false), rest)
  {
    if xs == [] {
      assert CharsText(xs) + rest == rest;
    } else {
      var first, more := CharText(xs[0]), CharsText(xs[1..]);
      assert CharsText(xs) == first + more;
      hide PassesIn, CharText, CharsText, GoodChar;
      CharStep(xs[0], depth, more + rest);
      InsideString(xs[1..], depth, rest);
      ConcatPasses(first, more, Scan(depth, true, false), rest);
    }
  }

  /** Whatever braces, quotes and escapes a string holds, the scanner passes over it. */
  lemma StringPasses(xs: Chars, depth: int, rest: string)
    requires GoodChars(xs)
    ensures Passes(StringText(xs), depth, rest)
  {
    hide Span, CharsText;
    var tail := ['"'] + rest;
    InsideString(xs, depth, tail);
    SpanCons('"', rest, tail, Scan(depth, true, false));
    SpanCons('"', CharsText(xs) + tail, StringText(xs) + rest, Scan(depth, false, false));
  }

  lemma NumberIsQuiet(n: Number)
    requires GoodNumber(n)
    ensures IsQuiet(NumberText(n))
  {
    assert IsQuiet(n.whole);
    if n.frac.Some? { assert IsQuiet(n.frac.value); }
    if n.exp.Some? { assert IsQuiet(n.exp.value.digits) && IsQuiet(n.exp.value.sign); }
  }

  lemma BlankIsQuiet(ws: string, mark: string)
    requires IsBlank(ws) && mark in {"", ",", ":", "["}
    ensures IsQuiet(ws + mark) && IsQuiet(mark + ws)
  {}

  lemma {:induction false} ValuePasses(v: Json, depth: int, rest: string)
    requires Good(v) && depth >= 1
    ensures Passes(Print(v), depth, rest)
    decreases v, 0
  {
    match v
    case Null => QuietPasses("null", depth, rest);
    case True => QuietPasses("true", depth, rest);
    case False => QuietPasses("false", depth, rest);
    case Num(n) =>
      NumberIsQuiet(n);
      QuietPasses(NumberText(n), depth, rest);
    case Str(xs) => StringPasses(xs, depth, rest);
    case Arr(blank, items) =>
      var body := blank + ItemsText(items);
      QuietPasses("]", depth, rest);
      ItemsPass(items, depth, "]" + rest);
      BlankIsQuiet(blank, "");
      QuietPasses(blank, depth, ItemsText(items) + ("]" + rest));
      PassesConcat(blank, ItemsText(items), depth, "]" + rest);
      PassesConcat(body, "]", depth, rest);
      QuietPasses("[", depth, (body + "]") + rest);
      PassesConcat("[", body + "]", depth, rest);
      assert Print(v) == "[" + (body + "]");
    case Obj(blank, members) =>
      ObjectScan(blank, members, depth, rest);
  }

  lemma {:induction false} ItemsPass(items: Items, depth: int, rest: string)
    requires GoodItems(items) && depth >= 1
    ensures Passes(ItemsText(items), depth, rest)
    decreases items, 0
  {
    match items
    case NoItems => assert "" + rest == rest;
    case Item(before, v, after, more) =>
      hide Span, Print;
      var mark := if more.NoItems? then "" else ",";
      var tail := ItemsText(more);
      ItemsPass(more, depth, rest);
      AroundValue(v, after + mark, tail, depth, rest) by { ValuePasses(v, depth, (after + mark + tail) + rest); BlankIsQuiet(after, mark); }
      BlankIsQuiet(before, "");
      QuietPasses(before, depth, (Print(v) + ((after + mark) + tail)) + rest);
      PassesConcat(before, Print(v) + ((after + mark) + tail), depth, rest);
  }

  lemma AroundValue(v: Json, between: string, tail: string, depth: int, rest: string)
    requires Passes(Print(v), depth, (between + tail) + rest) && IsQuiet(between) && Passes(tail, depth, rest)
    ensures Passes(Print(v) + (between + tail), depth, rest)
  {
    hide Span, Print;
    QuietPasses(between, depth, tail + rest);
    PassesConcat(between, tail, depth, rest);
    PassesConcat(Print(v), between + tail, depth, rest);
  }

  lemma {:induction false} MembersPass(members: Members, depth: int, rest: string)
    requires GoodMembers(members) && depth >= 1
    ensures Passes(MembersText(members), depth, rest)
    decreases members, 0
  {
    match members
    case NoMembers => assert "" + rest == rest;
    case Member(before, name, gap, lead, v, after, more) =>
      hide Span, Print;
      var mark := if more.NoMembers? then "" else ",";
      var tail := MembersText(more);
      var fromValue := Print(v) + ((after + mark) + tail);
      var colon := gap + ":" + lead;
      MembersPass(more, depth, rest);
      AroundValue(v, after + mark, tail, depth, rest) by { ValuePasses(v, depth, (after + mark + tail) + rest); BlankIsQuiet(after, mark); }
      assert IsQuiet(colon) by { BlankIsQuiet(gap, ":"); BlankIsQuiet(lead, ""); }
      QuietPasses(colon, depth, fromValue + rest);
      PassesConcat(colon, fromValue, depth, rest);
      StringPasses(name, depth, (colon + fromValue) + rest);
      PassesConcat(StringText(name), colon + fromValue, depth, rest);
      BlankIsQuiet(before, "");
      QuietPasses(before, depth, (StringText(name) + (colon + fromValue)) + rest);
      PassesConcat(before, StringText(name) + (colon + fromValue), depth, rest);
  }

  /** An object raises the depth by one and its own closing brace restores it, or ends the span. */
  lemma {:induction false} ObjectScan(blank: string, members: Members, depth: int, rest: string)
    requires IsBlank(blank) && GoodMembers(members) && depth >= 0
    ensures var t := Print(Obj(blank, members));
            Span(t + rest, Scan(depth, false, false))
            == if depth == 0 then Some(|t|) else Plus(|t|, Span(rest, Scan(depth, false, false)))
    decreases members, 1
  {
    hide Span, MembersText;
    var body := blank + MembersText(members);
    var tail := ['}'] + rest;
    MembersPass(members, depth + 1, tail);
    BlankIsQuiet(blank, "");
    QuietPasses(blank, depth + 1, MembersText(members) + tail);
    PassesConcat(blank, MembersText(members), depth + 1, tail);
    SpanCons('{', body + tail, Print(Obj(blank, members)) + rest, Scan(depth, false, false));
    SpanCons('}', rest, tail, Scan(depth + 1, false, false));
  }

  // ----- the theorem -----

  /**
  For every JSON object, every prefix without a brace and every suffix, the selected text is exactly the object's
  text, so the result is the parse of that text and of nothing else.
  */
  lemma SelectsTheObject(blank: string, members: Members, prefix: string, suffix: string)
    requires Good(Obj(blank, members)) && '{' !in prefix
    ensures Selected(prefix + Print(Obj(blank, members)) + suffix) == Some(Print(Obj(blank, members)))
  {
    var t := Print(Obj(blank, members));
    var text := prefix + t + suffix;
    assert text == prefix + ['{'] + (t[1..] + suffix);
    Text.IndexOfAfter(prefix, '{', t[1..] + suffix);
    assert text[|prefix|..] == t + suffix;
    ObjectScan(blank, members, 0, suffix);
    assert text[|prefix|..|prefix| + |t|] == t;
  }

  lemma PrintStarts(blank: string, members: Members)
    ensures Print(Obj(blank, members)) != [] && Print(Obj(blank, members))[0] == '{'
  {}

  lemma {:induction false} SpanIsLocal(a: string, b: string, st: Scan)
    requires Span(a + b, st).Some? && Span(a + b, st).value > |a|
    ensures Span(a, st).None?
  {
    if a != [] {
      assert (a + b)[1..] == a[1..] + b;
      SpanIsLocal(a[1..], b, Advance(st, a[0]));
    }
  }

  /** A reply cut off anywhere inside its object yields nothing. */
  lemma CutObjectYieldsNothing(blank: string, members: Members, prefix: string, n: nat)
    requires Good(Obj(blank, members)) && '{' !in prefix && n < |Print(Obj(blank, members))|
    ensures Selected(prefix + Print(Obj(blank, members))[..n]).None?
  {
    var t := Print(Obj(blank, members));
    hide Print, Span;
    ObjectScan(blank, members, 0, []);
    PrintStarts(blank, members);
    assert t + [] == t == t[..n] + t[n..];
    SpanIsLocal(t[..n], t[n..], START);
    var text := prefix + t[..n];
    if n == 0 {
      SpanOfNothing(START);
      assert text == prefix;
      assert text[|text|..] == [];
    } else {
      assert text == prefix + ['{'] + t[1..n];
      Text.IndexOfAfter(prefix, '{', t[1..n]);
      assert text[|prefix|..] == t[..n];
    }
  }

  // ----- braces in front of the object -----

  /** The state in which the scanner leaves `t`. */
  function Behind(t: string, st: Scan): Scan {
    if t == [] then st else Behind(t[1..], Advance(st, t[0]))
  }

  /** A span is found in the first part, or goes on from the state behind it. */
  lemma {:induction false} SpanConcat(a: string, b: string, st: Scan)
    ensures Span(a + b, st) == if Span(a, st).Some? then Span(a, st) else Plus(|a|, Span(b, Behind(a, st)))
    decreases |a|
  {
    if a == [] {
      assert a + b == b;
    } else {
      SpanConcat(a[1..], b, Advance(st, a[0]));
      assert (a + b)[1..] == a[1..] + b;
    }
  }

  /** Without a closing brace that ends the span, the scanner stays inside it. */
  lemma {:induction false} StaysInside(t: string, st: Scan)
    requires st.depth >= 1 && (!st.inStr ==> !st.esc) && Span(t, st).None?
    ensures var after := Behind(t, st); after.depth >= 1 && (!after.inStr ==> !after.esc)
    decreases |t|
  {
    if t != [] { StaysInside(t[1..], Advance(st, t[0])); }
  }

  lemma OpenStaysInside(t: string)
    requires t != [] && t[0] == '{' && Span(t, START).None?
    ensures var after := Behind(t, START); after.depth >= 1 && (!after.inStr ==> !after.esc)
  {
    StaysInside(t[1..], Advance(START, t[0]));
  }

  lemma {:induction false} IndexOfInPrefix(prefix: string, rest: string)
    requires '{' in prefix
    ensures Text.IndexOf(prefix + rest, '{') == Text.IndexOf(prefix, '{') < |prefix|
    decreases |prefix|
  {
    if prefix[0] != '{' {
      IndexOfInPrefix(prefix[1..], rest);
      assert (prefix + rest)[1..] == prefix[1..] + rest;
    }
  }

  lemma SelectedFrom(text: string, tail: string)
    requires tail == text[Text.IndexOf(text, '{')..]
    ensures Selected(text) == match Span(tail, START) case None => None case Some(n) => Some(tail[..n])
  {
    hide Span, Text.IndexOf;
    var start := Text.IndexOf(text, '{');
    if Span(tail, START).Some? {
      var n := Span(tail, START).value;
      assert text[start..start + n] == tail[..n];
    }
  }

  /** The scan of a text whose prefix holds a brace, cut at the end of the prefix. */
  lemma ScanFromPrefix(prefix: string, rest: string) returns (open: string)
    requires '{' in prefix
    ensures open == prefix[Text.IndexOf(prefix, '{')..] && open != [] && open[0] == '{'
    ensures var start := Text.IndexOf(prefix, '{');
            Text.IndexOf(prefix + rest, '{') == start && (prefix + rest)[start..] == open + rest
    ensures Span(open + rest, START)
            == if Span(open, START).Some? then Span(open, START) else Plus(|open|, Span(rest, Behind(open, START)))
  {
    IndexOfInPrefix(prefix, rest);
    var start := Text.IndexOf(prefix, '{');
    open := prefix[start..];
    assert (prefix + rest)[start..] == open + rest;
    hide Span, Behind, Text.IndexOf;
    SpanConcat(open, rest, START);
  }

  /** The object is selected at its own place exactly when no brace stands before it. */
  lemma PlaceIff(blank: string, members: Members, prefix: string, suffix: string)
    requires Good(Obj(blank, members))
    ensures Place(prefix + Print(Obj(blank, members)) + suffix) == Some((|prefix|, |Print(Obj(blank, members))|))
            <==> '{' !in prefix
  {
    var t := Print(Obj(blank, members));
    var text := prefix + t + suffix;
    PrintStarts(blank, members);
    ObjectScan(blank, members, 0, suffix);
    hide Print, Span, Text.IndexOf;
    if '{' in prefix {
      assert text == prefix + (t + suffix);
      IndexOfInPrefix(prefix, t + suffix);
    } else {
      assert text == prefix + ['{'] + (t[1..] + suffix);
      Text.IndexOfAfter(prefix, '{', t[1..] + suffix);
      assert text[|prefix|..] == t + suffix;
    }
  }

  /** An earlier balanced span wins, whatever follows. */
  lemma EarlierSpanWins(prefix: string, rest: string)
    requires '{' in prefix && Selected(prefix).Some?
    ensures Selected(prefix + rest) == Selected(prefix)
  {
    var open := ScanFromPrefix(prefix, rest);
    hide Span, Text.IndexOf, Selected;
    SelectedFrom(prefix, open);
    SelectedFrom(prefix + rest, open + rest);
    assert (open + rest)[..Span(open, START).value] == open[..Span(open, START).value];
  }

  /**
  An unbalanced brace outside a string swallows the object: the scan goes on behind it at the same depth, and what is
  selected, if the suffix closes the brace, starts at the brace and holds the object.
  */
  lemma OpenBraceSwallows(blank: string, members: Members, prefix: string, suffix: string) returns (open: string)
    requires Good(Obj(blank, members)) && '{' in prefix && Selected(prefix).None?
    requires !Behind(prefix[Text.IndexOf(prefix, '{')..], START).inStr
    ensures open == prefix[Text.IndexOf(prefix, '{')..]
    ensures var t, st := Print(Obj(blank, members)), Behind(open, START);
            Selected(prefix + t + suffix)
            == match Span(suffix, st) case None => None case Some(n) => Some(open + t + suffix[..n])
  {
    var t := Print(Obj(blank, members));
    hide Print, Span, Behind, Text.IndexOf, Selected, IsQuiet;
    open := ScanFromPrefix(prefix, t + suffix);
    SelectedFrom(prefix, open);
    SelectedFrom(prefix + (t + suffix), open + (t + suffix));
    var st := Behind(open, START);
    OpenStaysInside(open);
    ObjectScan(blank, members, st.depth, suffix);
    assert st == Scan(st.depth, false, false);
    assert prefix + t + suffix == prefix + (t + suffix);
    if Span(suffix, st).Some? { Cut(open, t, suffix, Span(suffix, st).value); }
  }

  lemma Cut(a: string, b: string, c: string, n: nat)
    requires n <= |c|
    ensures (a + (b + c))[..|a| + (|b| + n)] == a + b + c[..n]
  {}

  lemma OpenIsOpen(prefix: string, open: string)
    requires '{' in prefix && Selected(prefix).None? && open == prefix[Text.IndexOf(prefix, '{')..]
    ensures open != [] && open[0] == '{' && Span(open, START).None?
  {
    hide Text.IndexOf;
    assert Text.IndexOf(prefix, '{') < |prefix|;
  }

  /** With nothing to close the brace, nothing is selected. */
  lemma OpenBraceYieldsNothing(blank: string, members: Members, prefix: string, suffix: string)
    requires Good(Obj(blank, members)) && '{' in prefix && Selected(prefix).None? && IsQuiet(suffix)
    requires !Behind(prefix[Text.IndexOf(prefix, '{')..], START).inStr
    ensures Selected(prefix + Print(Obj(blank, members)) + suffix).None?
  {
    var open := OpenBraceSwallows(blank, members, prefix, suffix);
    var st := Behind(open, START);
    hide Behind, Selected, Print, Text.IndexOf, Span;
    OpenIsOpen(prefix, open);
    OpenStaysInside(open);
    assert st == Scan(st.depth, false, false);
    QuietPasses(suffix, st.depth, []);
    assert suffix + [] == suffix;
    SpanOfNothing(st);
  }

  /** Inside a string that the prefix leaves open, the scan starts at the earlier brace too: never at the object. */
  lemma NeverAtTheObject(prefix: string, rest: string)
    requires '{' in prefix
    ensures Place(prefix + rest).Some? ==> Place(prefix + rest).value.0 == Text.IndexOf(prefix, '{') < |prefix|
    ensures Place(prefix + rest).Some? <==>
            Selected(prefix).Some? || Span(rest, Behind(prefix[Text.IndexOf(prefix, '{')..], START)).Some?
  {
    var open := ScanFromPrefix(prefix, rest);
    hide Span, Behind, Text.IndexOf;
  }
}
